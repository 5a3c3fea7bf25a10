/** The dashboard's aggregated tables (`BearCart/backend/analysis.py`):
    per-channel and per-device session counts, session and revenue trends
    by date, the two-stage funnel, per-key conversion rates, the single
    AOV row and the refund breakdowns. Each function filters by the date
    window, groups, and sorts. */
module Analysis {
  import opened Seqs
  import opened Sorting
  import opened Grouping
  import opened Tables
  import opened Kpis

  // ---------------------------------------------------------------------
  // Sessions by channel and by device

  /** `get_sessions_by_channel`: one row per channel of the in-window
      sessions with its session count, most sessions first. */
  function SessionsByChannel(ss: seq<Session>, w: DateFilter): (rows: seq<Agg<string>>)
    ensures IsGroupTable(rows, SessionsIn(ss, w), SessionChannel, One)
    ensures SortedBy(rows, CountKey, true)
  {
    SortedGroupBy(SessionsIn(ss, w), SessionChannel, One, CountKey, true)
  }

  /** `get_sessions_by_device`: the same table keyed by device. */
  function SessionsByDevice(ss: seq<Session>, w: DateFilter): (rows: seq<Agg<string>>)
    ensures IsGroupTable(rows, SessionsIn(ss, w), SessionDevice, One)
    ensures SortedBy(rows, CountKey, true)
  {
    SortedGroupBy(SessionsIn(ss, w), SessionDevice, One, CountKey, true)
  }

  /** Each channel's bar is the session KPI with that channel as filter, and
      the bars add up to the in-window sessions that have a channel. */
  lemma SessionsByChannelMatchesKpi(ss: seq<Session>, w: DateFilter)
    ensures forall r :: r in SessionsByChannel(ss, w) && r.key != "" ==>
              r.count == TotalSessions(ss, w, Some(r.key), None)
    ensures Sum(SessionsByChannel(ss, w), AggCount)
            == Count(SessionsIn(ss, w), KeyPresent(SessionChannel))
  {
    forall r | r in SessionsByChannel(ss, w) && r.key != ""
      ensures r.count == TotalSessions(ss, w, Some(r.key), None)
    {
      ChannelGroupIsKpi(ss, w, r.key);
    }
  }

  lemma ChannelGroupIsKpi(ss: seq<Session>, w: DateFilter, c: string)
    requires c != ""
    ensures GroupCount(SessionsIn(ss, w), SessionChannel, c) == TotalSessions(ss, w, Some(c), None)
  {
    forall x | x in ss
      ensures Selected(w, Some(c), None)(x) == (SessionInWindow(w)(x) && HasKey(SessionChannel, c)(x))
    {
      assert SessionChannel(x) == x.channel;
    }
    FilterFilter(ss, SessionInWindow(w), HasKey(SessionChannel, c), Selected(w, Some(c), None));
    FilterIsCount(ss, Selected(w, Some(c), None));
  }

  /** Each device's bar is the session KPI with that device as filter. */
  lemma SessionsByDeviceMatchesKpi(ss: seq<Session>, w: DateFilter)
    ensures forall r :: r in SessionsByDevice(ss, w) && r.key != "" ==>
              r.count == TotalSessions(ss, w, None, Some(r.key))
    ensures Sum(SessionsByDevice(ss, w), AggCount)
            == Count(SessionsIn(ss, w), KeyPresent(SessionDevice))
  {
    forall r | r in SessionsByDevice(ss, w) && r.key != ""
      ensures r.count == TotalSessions(ss, w, None, Some(r.key))
    {
      DeviceGroupIsKpi(ss, w, r.key);
    }
  }

  lemma DeviceGroupIsKpi(ss: seq<Session>, w: DateFilter, d: string)
    requires d != ""
    ensures GroupCount(SessionsIn(ss, w), SessionDevice, d) == TotalSessions(ss, w, None, Some(d))
  {
    forall x | x in ss
      ensures Selected(w, None, Some(d))(x) == (SessionInWindow(w)(x) && HasKey(SessionDevice, d)(x))
    {
      assert SessionDevice(x) == x.device;
    }
    FilterFilter(ss, SessionInWindow(w), HasKey(SessionDevice, d), Selected(w, None, Some(d)));
    FilterIsCount(ss, Selected(w, None, Some(d)));
  }

  // ---------------------------------------------------------------------
  // Trends over time

  /** `freq`: "D" keeps one row per day; any other frequency regroups the
      daily rows into the calendar bucket that `bucket` assigns to a day. */
  datatype Freq = Daily | Resample(bucket: int -> int)

  function BucketOf(bucket: int -> int): Agg<int> -> Option<int> {
    (a: Agg<int>) => Some(bucket(a.key))
  }

  /** The in-window sessions grouped by calendar day, oldest first. */
  function DailySessions(ss: seq<Session>, w: DateFilter): (rows: seq<Agg<int>>)
    ensures IsGroupTable(rows, SessionsIn(ss, w), SessionDay, One)
    ensures forall i, j :: 0 <= i < j < |rows| ==> rows[i].key < rows[j].key
  {
    var g := SortedGroupBy(SessionsIn(ss, w), SessionDay, One, IntKey, false);
    AscendingKeys(g);
    g
  }

  /** `get_sessions_time_trend`: rows of (date, `session_count`), the count
      being the `total` column, in ascending date order. */
  function SessionsTimeTrend(ss: seq<Session>, w: DateFilter, freq: Freq): (rows: seq<Agg<int>>)
    ensures forall i, j :: 0 <= i < j < |rows| ==> rows[i].key < rows[j].key
    ensures Sum(rows, AggTotal) == TotalSessions(ss, w, None, None)
    ensures freq.Daily? ==>
              (forall r :: r in rows ==> r.total == |Filter(SessionsIn(ss, w), HasKey(SessionDay, r.key))| && r.total >= 1)
              && (forall s :: s in ss && InWindow(w, s.timestamp) ==>
                    exists r :: r in rows && r.key == DayOf(s.timestamp))
  {
    var sin := SessionsIn(ss, w);
    var daily := DailySessions(ss, w);
    DailyTotal(sin, daily);
    match freq
    case Daily =>
      DailySessionsFacts(ss, w, daily);
      daily
    case Resample(bucket) =>
      var g := SortedGroupBy(daily, BucketOf(bucket), AggTotal, IntKey, false);
      AscendingKeys(g);
      FilterAllTrue(daily, KeyPresent(BucketOf(bucket)));
      g
  }

  /** Each daily row counts its day's sessions, and every day with an
      in-window session has a row. */
  lemma DailySessionsFacts(ss: seq<Session>, w: DateFilter, daily: seq<Agg<int>>)
    requires IsGroupTable(daily, SessionsIn(ss, w), SessionDay, One)
    ensures forall r :: r in daily ==> r.total == |Filter(SessionsIn(ss, w), HasKey(SessionDay, r.key))| && r.total >= 1
    ensures forall s :: s in ss && InWindow(w, s.timestamp) ==>
              exists r :: r in daily && r.key == DayOf(s.timestamp)
  {
    var sin := SessionsIn(ss, w);
    forall r | r in daily ensures r.total == |Filter(sin, HasKey(SessionDay, r.key))| && r.total >= 1 {
      SumOneIsLength(Filter(sin, HasKey(SessionDay, r.key)));
    }
    forall s | s in ss && InWindow(w, s.timestamp)
      ensures exists r :: r in daily && r.key == DayOf(s.timestamp)
    {
      assert s in sin;
      assert SessionDay(s).Some?;
    }
  }

  /** The daily counts add up to the number of in-window sessions. */
  lemma DailyTotal(sin: seq<Session>, daily: seq<Agg<int>>)
    requires IsGroupTable(daily, sin, SessionDay, One)
    ensures Sum(daily, AggTotal) == |sin|
  {
    assert forall x :: x in sin ==> SessionDay(x).Some?;
    GroupTableOfTotalKey(daily, sin, SessionDay, One);
    SumOneIsLength(sin);
  }

  /** One row of `get_revenue_trends`: date, revenue and order count. */
  datatype RevenueBin = RevenueBin(date: int, revenue: int, orders: int)

  function BinDate(b: RevenueBin): int { b.date }
  function BinRevenue(b: RevenueBin): int { b.revenue }
  function BinOrders(b: RevenueBin): int { b.orders }

  function ToBin(a: Agg<int>): RevenueBin {
    RevenueBin(a.key, a.total, a.count)
  }

  /** A resampled row: the bucket's revenue and the sum of its days' order
      counts. */
  function ResampledBin(daily: seq<Agg<int>>, bucket: int -> int): Agg<int> -> RevenueBin {
    (a: Agg<int>) => RevenueBin(a.key, a.total, GroupSum(daily, BucketOf(bucket), AggCount, a.key))
  }

  /** The in-window orders grouped by calendar day, oldest first. */
  function DailyRevenue(os: seq<Order>, w: DateFilter): (rows: seq<Agg<int>>)
    ensures IsGroupTable(rows, OrdersIn(os, w), OrderDay, OrderAmountOf)
    ensures forall i, j :: 0 <= i < j < |rows| ==> rows[i].key < rows[j].key
  {
    var g := SortedGroupBy(OrdersIn(os, w), OrderDay, OrderAmountOf, IntKey, false);
    AscendingKeys(g);
    g
  }

  /** `get_revenue_trends`: revenue and order count per date (or per
      bucket), ascending by date; the rows add up to the KPI revenue and
      order count of the window. */
  function RevenueTrends(os: seq<Order>, w: DateFilter, freq: Freq): (r: seq<RevenueBin>)
    ensures forall i, j :: 0 <= i < j < |r| ==> r[i].date < r[j].date
    ensures Sum(r, BinRevenue) == Revenue(os, w)
    ensures Sum(r, BinOrders) == TotalOrders(os, w)
    ensures freq.Daily? ==>
              (forall b :: b in r ==>
                 b.revenue == Sum(Filter(OrdersIn(os, w), HasKey(OrderDay, b.date)), OrderAmountOf)
                 && b.orders == |Filter(OrdersIn(os, w), HasKey(OrderDay, b.date))|
                 && b.orders >= 1)
              && (forall o :: o in os && InWindow(w, o.orderDate) ==>
                    exists b :: b in r && b.date == DayOf(o.orderDate))
  {
    match freq
    case Daily => DailyBins(os, w)
    case Resample(bucket) => ResampledBins(os, w, bucket)
  }

  /** One row per calendar day with an order. */
  function DailyBins(os: seq<Order>, w: DateFilter): (r: seq<RevenueBin>)
    ensures forall i, j :: 0 <= i < j < |r| ==> r[i].date < r[j].date
    ensures Sum(r, BinRevenue) == Revenue(os, w)
    ensures Sum(r, BinOrders) == TotalOrders(os, w)
    ensures forall b :: b in r ==>
              b.revenue == Sum(Filter(OrdersIn(os, w), HasKey(OrderDay, b.date)), OrderAmountOf)
              && b.orders == |Filter(OrdersIn(os, w), HasKey(OrderDay, b.date))|
              && b.orders >= 1
    ensures forall o :: o in os && InWindow(w, o.orderDate) ==>
              exists b :: b in r && b.date == DayOf(o.orderDate)
  {
    var oin := OrdersIn(os, w);
    var daily := DailyRevenue(os, w);
    DailyRevenueTotals(oin, daily);
    var r := Map(daily, ToBin);
    SumMap(daily, ToBin, BinRevenue, AggTotal);
    SumMap(daily, ToBin, BinOrders, AggCount);
    DailyBinsGroups(oin, daily, r);
    DailyBinsCover(os, w, daily, r);
    r
  }

  /** Each daily row carries its day's revenue and order count. */
  lemma DailyBinsGroups(oin: seq<Order>, daily: seq<Agg<int>>, r: seq<RevenueBin>)
    requires IsGroupTable(daily, oin, OrderDay, OrderAmountOf)
    requires r == Map(daily, ToBin)
    ensures forall b :: b in r ==>
              b.revenue == Sum(Filter(oin, HasKey(OrderDay, b.date)), OrderAmountOf)
              && b.orders == |Filter(oin, HasKey(OrderDay, b.date))|
              && b.orders >= 1
  {
    forall b | b in r
      ensures b.revenue == Sum(Filter(oin, HasKey(OrderDay, b.date)), OrderAmountOf)
      ensures b.orders == |Filter(oin, HasKey(OrderDay, b.date))|
      ensures b.orders >= 1
    {
      var i :| 0 <= i < |r| && r[i] == b;
      assert daily[i] in daily;
    }
  }

  /** Every day with an in-window order has a row. */
  lemma DailyBinsCover(os: seq<Order>, w: DateFilter, daily: seq<Agg<int>>, r: seq<RevenueBin>)
    requires IsGroupTable(daily, OrdersIn(os, w), OrderDay, OrderAmountOf)
    requires r == Map(daily, ToBin)
    ensures forall o :: o in os && InWindow(w, o.orderDate) ==>
              exists b :: b in r && b.date == DayOf(o.orderDate)
  {
    var oin := OrdersIn(os, w);
    forall o | o in os && InWindow(w, o.orderDate) ensures exists b :: b in r && b.date == DayOf(o.orderDate) {
      assert o in oin;
      assert OrderDay(o).Some?;
      var a :| a in daily && a.key == DayOf(o.orderDate);
      var i :| 0 <= i < |daily| && daily[i] == a;
      assert r[i] in r;
    }
  }

  /** One row per bucket of days. */
  function ResampledBins(os: seq<Order>, w: DateFilter, bucket: int -> int): (r: seq<RevenueBin>)
    ensures forall i, j :: 0 <= i < j < |r| ==> r[i].date < r[j].date
    ensures Sum(r, BinRevenue) == Revenue(os, w)
    ensures Sum(r, BinOrders) == TotalOrders(os, w)
  {
    var oin := OrdersIn(os, w);
    var daily := DailyRevenue(os, w);
    DailyRevenueTotals(oin, daily);
    var g := SortedGroupBy(daily, BucketOf(bucket), AggTotal, IntKey, false);
    AscendingKeys(g);
    FilterAllTrue(daily, KeyPresent(BucketOf(bucket)));
    var f := ResampledBin(daily, bucket);
    var r := Map(g, f);
    SumMap(g, f, BinRevenue, AggTotal);
    SumMap(g, f, BinOrders, (a: Agg<int>) => GroupSum(daily, BucketOf(bucket), AggCount, a.key));
    GroupTableSumOf(g, daily, BucketOf(bucket), AggTotal, AggCount,
                    (a: Agg<int>) => GroupSum(daily, BucketOf(bucket), AggCount, a.key));
    r
  }

  /** The daily rows add up to the window's revenue and order count. */
  lemma DailyRevenueTotals(oin: seq<Order>, daily: seq<Agg<int>>)
    requires IsGroupTable(daily, oin, OrderDay, OrderAmountOf)
    ensures Sum(daily, AggTotal) == Sum(oin, OrderAmountOf)
    ensures Sum(daily, AggCount) == |oin|
  {
    assert forall x :: x in oin ==> OrderDay(x).Some?;
    GroupTableOfTotalKey(daily, oin, OrderDay, OrderAmountOf);
  }

  // ---------------------------------------------------------------------
  // Funnel

  /** One stage of the conversion funnel. */
  datatype Stage = Stage(stage: string, count: nat)

  /** `get_conversion_funnel`: the in-window sessions, then the in-window
      orders. */
  function ConversionFunnel(ss: seq<Session>, os: seq<Order>, w: DateFilter): (r: seq<Stage>)
    ensures |r| == 2
    ensures r[0] == Stage("Sessions", TotalSessions(ss, w, None, None))
    ensures r[1] == Stage("Orders", TotalOrders(os, w))
  {
    [Stage("Sessions", |SessionsIn(ss, w)|), Stage("Orders", |OrdersIn(os, w)|)]
  }

  /** Nothing in the funnel forces the second stage to be the smaller: an
      order whose session lies outside the table makes it wider. */
  lemma FunnelMayWiden()
    ensures var f := ConversionFunnel([], [Order(1, 7, 1, 0, 2500, 1)], None);
            f[1].count > f[0].count
  {
  }

  /** The funnel narrows when each in-window order comes from its own
      in-window session. */
  lemma FunnelNarrows(ss: seq<Session>, os: seq<Order>, w: DateFilter)
    requires KeysDistinct(OrdersIn(os, w), OrderSessionOf)
    requires forall o :: o in os && InWindow(w, o.orderDate) ==>
               exists s :: s in ss && InWindow(w, s.timestamp) && s.sessionId == o.sessionId
    ensures ConversionFunnel(ss, os, w)[1].count <= ConversionFunnel(ss, os, w)[0].count
  {
    var sin := SessionsIn(ss, w);
    var oin := OrdersIn(os, w);
    DistinctIffImageFull(oin, OrderSessionOf);
    assert Image(oin, OrderSessionOf) <= Image(sin, SessionIdOf) by {
      forall id | id in Image(oin, OrderSessionOf) ensures id in Image(sin, SessionIdOf) {
        var o :| o in oin && OrderSessionOf(o) == id;
        var s :| s in ss && InWindow(w, s.timestamp) && s.sessionId == o.sessionId;
        assert s in sin;
        assert SessionIdOf(s) == id;
      }
    }
    ImageSubsetBound(oin, OrderSessionOf, sin, SessionIdOf);
  }

  // ---------------------------------------------------------------------
  // Conversion by channel and by device

  /** One row of `get_conversion_by_channel` / `_device`. */
  datatype ConvRow<K> = ConvRow(key: K, sessions: nat, orders: nat, rate: real)

  function ConvKey<K>(r: ConvRow<K>): K { r.key }
  function RateKey<K>(r: ConvRow<K>): real { r.rate }

  /** The key of the first in-window session with this id (the left merge
      of the orders onto the sessions); None when no session matches or
      its key is missing. */
  function SessionKeyOf<K>(sin: seq<Session>, key: Session -> Option<K>, id: int): (r: Option<K>)
    ensures r.Some? ==> exists s :: s in sin && s.sessionId == id && key(s) == r
    ensures (forall s :: s in sin ==> s.sessionId != id) ==> r.None?
  {
    if sin == [] then None
    else if sin[0].sessionId == id then key(sin[0])
    else
      var r := SessionKeyOf(sin[1..], key, id);
      assert forall s :: s in sin[1..] ==> s in sin;
      r
  }

  /** With unique session ids, an order's key is its session's key. */
  lemma SessionKeyOfUnique<K>(sin: seq<Session>, key: Session -> Option<K>, s: Session)
    requires KeysDistinct(sin, SessionIdOf)
    requires s in sin
    ensures SessionKeyOf(sin, key, s.sessionId) == key(s)
  {
    if sin[0] != s {
      assert sin[0].sessionId != s.sessionId by {
        var i :| 0 <= i < |sin| && sin[i] == s;
        assert SessionIdOf(sin[0]) != SessionIdOf(sin[i]);
      }
      assert KeysDistinct(sin[1..], SessionIdOf) by {
        forall i, j | 0 <= i < j < |sin[1..]|
          ensures SessionIdOf(sin[1..][i]) != SessionIdOf(sin[1..][j])
        {
          assert sin[1..][i] == sin[i + 1] && sin[1..][j] == sin[j + 1];
        }
      }
      SessionKeyOfUnique(sin[1..], key, s);
    }
  }

  function OrderKeyVia<K>(sin: seq<Session>, key: Session -> Option<K>): Order -> Option<K> {
    (o: Order) => SessionKeyOf(sin, key, o.sessionId)
  }

  /** One conversion row per grouped key: its sessions, its orders
      (`fillna(0)`) and `orders / sessions * 100`. */
  function ConvRows<K(==)>(sin: seq<Session>, oin: seq<Order>, key: Session -> Option<K>,
                           g: seq<Agg<K>>): (rows: seq<ConvRow<K>>)
    requires forall a :: a in g ==> a.count >= 1
    ensures |rows| == |g|
    ensures forall i :: 0 <= i < |g| ==>
              rows[i].key == g[i].key && rows[i].sessions == g[i].count
              && rows[i].orders == GroupCount(oin, OrderKeyVia(sin, key), g[i].key)
              && IsPercentOf(rows[i].rate, rows[i].orders, rows[i].sessions)
  {
    if g == [] then []
    else
      var a := g[0];
      var orders := GroupCount(oin, OrderKeyVia(sin, key), a.key);
      assert forall b :: b in g[1..] ==> b in g;
      [ConvRow(a.key, a.count, orders, PercentOf(orders, a.count))] + ConvRows(sin, oin, key, g[1..])
  }

  /** The conversion table for any session key, highest rate first. */
  function ConversionBy<K(==)>(ss: seq<Session>, os: seq<Order>, w: DateFilter,
                               key: Session -> Option<K>): (rows: seq<ConvRow<K>>)
    ensures KeysDistinct(rows, ConvKey)
    ensures forall r :: r in rows ==>
              && r.sessions >= 1
              && r.sessions == GroupCount(SessionsIn(ss, w), key, r.key)
              && r.orders == GroupCount(OrdersIn(os, w), OrderKeyVia(SessionsIn(ss, w), key), r.key)
              && IsPercentOf(r.rate, r.orders, r.sessions)
    ensures forall s :: s in ss && InWindow(w, s.timestamp) && key(s).Some? ==>
              exists r :: r in rows && r.key == key(s).value
    ensures SortedBy(rows, RateKey, true)
  {
    var sin := SessionsIn(ss, w);
    var oin := OrdersIn(os, w);
    var g := GroupBy(sin, key, One);
    var unsorted := ConvRows(sin, oin, key, g);
    var rows := SortBy(unsorted, RateKey, true);
    ConvRowsFacts(sin, oin, key, g, unsorted);
    SortedConvRows(ss, w, sin, oin, key, unsorted, rows);
    rows
  }

  lemma ConvRowsFacts<K>(sin: seq<Session>, oin: seq<Order>, key: Session -> Option<K>,
                         g: seq<Agg<K>>, unsorted: seq<ConvRow<K>>)
    requires IsGroupTable(g, sin, key, One)
    requires |unsorted| == |g|
    requires forall i :: 0 <= i < |g| ==>
               unsorted[i].key == g[i].key && unsorted[i].sessions == g[i].count
               && unsorted[i].orders == GroupCount(oin, OrderKeyVia(sin, key), g[i].key)
               && IsPercentOf(unsorted[i].rate, unsorted[i].orders, unsorted[i].sessions)
    ensures KeysDistinct(unsorted, ConvKey)
    ensures forall r :: r in unsorted ==>
              && r.sessions >= 1
              && r.sessions == GroupCount(sin, key, r.key)
              && r.orders == GroupCount(oin, OrderKeyVia(sin, key), r.key)
              && IsPercentOf(r.rate, r.orders, r.sessions)
    ensures forall x :: x in sin && key(x).Some? ==> exists r :: r in unsorted && r.key == key(x).value
  {
    forall i, j | 0 <= i < j < |unsorted| ensures ConvKey(unsorted[i]) != ConvKey(unsorted[j]) {
      assert AggKey(g[i]) != AggKey(g[j]);
    }
    forall r | r in unsorted
      ensures r.sessions >= 1 && r.sessions == GroupCount(sin, key, r.key)
    {
      var i :| 0 <= i < |unsorted| && unsorted[i] == r;
      assert g[i] in g;
    }
    forall x | x in sin && key(x).Some? ensures exists r :: r in unsorted && r.key == key(x).value {
      var a :| a in g && a.key == key(x).value;
      var i :| 0 <= i < |g| && g[i] == a;
      assert unsorted[i] in unsorted;
    }
  }

  /** Sorting the conversion rows keeps what each row says. */
  lemma SortedConvRows<K>(ss: seq<Session>, w: DateFilter, sin: seq<Session>, oin: seq<Order>,
                          key: Session -> Option<K>, unsorted: seq<ConvRow<K>>, rows: seq<ConvRow<K>>)
    requires sin == SessionsIn(ss, w)
    requires multiset(unsorted) == multiset(rows)
    requires KeysDistinct(unsorted, ConvKey)
    requires forall r :: r in unsorted ==>
              && r.sessions >= 1
              && r.sessions == GroupCount(sin, key, r.key)
              && r.orders == GroupCount(oin, OrderKeyVia(sin, key), r.key)
              && IsPercentOf(r.rate, r.orders, r.sessions)
    requires forall x :: x in sin && key(x).Some? ==> exists r :: r in unsorted && r.key == key(x).value
    ensures KeysDistinct(rows, ConvKey)
    ensures forall r :: r in rows ==>
              && r.sessions >= 1
              && r.sessions == GroupCount(sin, key, r.key)
              && r.orders == GroupCount(oin, OrderKeyVia(sin, key), r.key)
              && IsPercentOf(r.rate, r.orders, r.sessions)
    ensures forall s :: s in ss && InWindow(w, s.timestamp) && key(s).Some? ==>
              exists r :: r in rows && r.key == key(s).value
  {
    PermutationKeepsKeysDistinct(unsorted, rows, ConvKey);
    PermutationMembers(unsorted, rows);
    forall s | s in ss && InWindow(w, s.timestamp) && key(s).Some?
      ensures exists r :: r in rows && r.key == key(s).value
    {
      assert s in sin;
    }
  }

  /** `get_conversion_by_channel`. */
  function ConversionByChannel(ss: seq<Session>, os: seq<Order>, w: DateFilter): (rows: seq<ConvRow<string>>)
    ensures forall r :: r in rows ==> r.sessions >= 1 && r.rate >= 0.0
    ensures SortedBy(rows, RateKey, true)
  {
    var rows := ConversionBy(ss, os, w, SessionChannel);
    assert forall r :: r in rows ==> r.rate >= 0.0 by {
      forall r | r in rows ensures r.rate >= 0.0 {
        RateNonNegative(r.rate, r.orders, r.sessions);
      }
    }
    rows
  }

  /** `get_conversion_by_device`. */
  function ConversionByDevice(ss: seq<Session>, os: seq<Order>, w: DateFilter): (rows: seq<ConvRow<string>>)
    ensures forall r :: r in rows ==> r.sessions >= 1 && r.rate >= 0.0
    ensures SortedBy(rows, RateKey, true)
  {
    var rows := ConversionBy(ss, os, w, SessionDevice);
    assert forall r :: r in rows ==> r.rate >= 0.0 by {
      forall r | r in rows ensures r.rate >= 0.0 {
        RateNonNegative(r.rate, r.orders, r.sessions);
      }
    }
    rows
  }

  lemma RateNonNegative(r: real, k: nat, n: nat)
    requires n >= 1 && IsPercentOf(r, k, n)
    ensures r >= 0.0
  {
    if r < 0.0 {
      CancelPositive(0.0, r, n as real);
    }
  }

  /** Each channel row of the conversion table counts the in-window sessions
      of that channel, as the session KPI does with that channel filter. */
  lemma ConversionByChannelSessions(ss: seq<Session>, os: seq<Order>, w: DateFilter)
    ensures forall r :: r in ConversionByChannel(ss, os, w) && r.key != "" ==>
              r.sessions == TotalSessions(ss, w, Some(r.key), None)
  {
    forall r | r in ConversionByChannel(ss, os, w) && r.key != ""
      ensures r.sessions == TotalSessions(ss, w, Some(r.key), None)
    {
      ChannelGroupIsKpi(ss, w, r.key);
    }
  }

  /** An in-window order of an in-window session is counted in that
      session's channel row (session ids being unique). */
  lemma ConversionByChannelCountsOrder(ss: seq<Session>, os: seq<Order>, w: DateFilter, o: Order, s: Session)
    requires KeysDistinct(SessionsIn(ss, w), SessionIdOf)
    requires o in os && InWindow(w, o.orderDate)
    requires s in ss && InWindow(w, s.timestamp) && s.sessionId == o.sessionId && s.channel.Some?
    ensures exists r :: r in ConversionByChannel(ss, os, w) && r.key == s.channel.value && r.orders >= 1
  {
    var sin := SessionsIn(ss, w);
    var oin := OrdersIn(os, w);
    assert s in sin;
    SessionKeyOfUnique(sin, SessionChannel, s);
    assert ConversionByChannel(ss, os, w) == ConversionBy(ss, os, w, SessionChannel);
    assert SessionChannel(s).Some?;
    var r :| r in ConversionByChannel(ss, os, w) && r.key == s.channel.value;
    assert o in Filter(oin, HasKey(OrderKeyVia(sin, SessionChannel), r.key));
  }

  // ---------------------------------------------------------------------
  // AOV by category

  /** One row of `get_aov_by_category`; a mean over no orders is None (NaN). */
  datatype CategoryAov = CategoryAov(category: string, aov: Option<real>)

  /** `get_aov_by_category`: the single "All Categories" row holding the
      mean order amount of the window. */
  function AovByCategory(os: seq<Order>, w: DateFilter): (r: seq<CategoryAov>)
    ensures |r| == 1 && r[0].category == "All Categories"
    ensures r[0].aov.None? <==> TotalOrders(os, w) == 0
    ensures r[0].aov.Some? ==>
              IsRatio(r[0].aov.value, Revenue(os, w), TotalOrders(os, w))
              && r[0].aov.value == AverageOrderValue(os, w)
  {
    var n := |OrdersIn(os, w)|;
    [CategoryAov("All Categories", if n == 0 then None else Some(Ratio(Revenue(os, w), n)))]
  }

  // ---------------------------------------------------------------------
  // Refund analysis

  /** `get_refund_analysis`: `by_reason` and `trend`. */
  datatype RefundReport = RefundReport(byReason: seq<Agg<string>>, trend: seq<Agg<int>>)

  function RefundAnalysis(rs: seq<Refund>, w: DateFilter): (r: RefundReport)
    ensures IsGroupTable(r.byReason, RefundsIn(rs, w), RefundReason, RefundAmountOf)
    ensures SortedBy(r.byReason, TotalKey, true)
    ensures IsGroupTable(r.trend, RefundsIn(rs, w), RefundDay, RefundAmountOf)
    ensures forall i, j :: 0 <= i < j < |r.trend| ==> r.trend[i].key < r.trend[j].key
  {
    var rin := RefundsIn(rs, w);
    var byReason := SortedGroupBy(rin, RefundReason, RefundAmountOf, TotalKey, true);
    var trend := SortedGroupBy(rin, RefundDay, RefundAmountOf, IntKey, false);
    AscendingKeys(trend);
    RefundReport(byReason, trend)
  }

  /** Both breakdowns count every in-window refund once and add up to the
      refund-value KPI. */
  lemma RefundAnalysisTotals(rs: seq<Refund>, w: DateFilter)
    ensures var r := RefundAnalysis(rs, w);
            && Sum(r.byReason, AggCount) == |RefundsIn(rs, w)|
            && Sum(r.trend, AggCount) == |RefundsIn(rs, w)|
            && Sum(r.byReason, AggTotal) == RefundValue(rs, w)
            && Sum(r.trend, AggTotal) == RefundValue(rs, w)
  {
    var rin := RefundsIn(rs, w);
    var r := RefundAnalysis(rs, w);
    assert forall x :: x in rin ==> RefundReason(x).Some? && RefundDay(x).Some?;
    GroupTableOfTotalKey(r.byReason, rin, RefundReason, RefundAmountOf);
    GroupTableOfTotalKey(r.trend, rin, RefundDay, RefundAmountOf);
  }
}
