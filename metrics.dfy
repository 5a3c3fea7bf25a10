/** The dashboard KPIs of the API server (`server/services/metrics.py`):
    traffic, conversion, revenue, product and quality reports computed from
    the featured master table, the cleaned orders and the enriched order
    items, and the dashboard that gathers the five of them. A rate is a
    `real`; a share whose denominator is empty is 0, except the repeat
    customer rate, which is NaN (None here) on an empty master table. */
module Metrics {
  import opened Seqs
  import opened Sorting
  import opened Grouping
  import opened ServerCleaner
  import opened Features

  /** `k / n if n > 0 else 0`. */
  function Share(k: int, n: nat): (r: real)
    ensures n == 0 ==> r == 0.0
    ensures n > 0 ==> IsRatio(r, k, n)
    ensures 0 <= k <= n ==> 0.0 <= r <= 1.0
  {
    if n == 0 then 0.0 else Ratio(k, n)
  }

  // Column accessors of the featured master table.
  function ChannelKey(f: FeaturedRow): Option<string> { Some(f.trafficChannel) }
  function DeviceKey(f: FeaturedRow): Option<string> { f.master.session.deviceType }
  function ConversionFlagOf(f: FeaturedRow): int { f.master.conversionFlag }
  function OrderValueOfRow(f: FeaturedRow): int { f.master.totalOrderValue }
  function RefundFlagOf(f: FeaturedRow): int { f.master.wasRefunded }
  function UserOf(f: FeaturedRow): int { f.master.session.userId }
  function PageviewsOf(f: FeaturedRow): int { f.master.funnel.GetOr(NoPageviews).totalPageviews }
  function StepFlagOf(step: Step): FeaturedRow -> int {
    (f: FeaturedRow) => StepOf(f.master.funnel.GetOr(NoPageviews), step)
  }
  function IsConverted(f: FeaturedRow): bool { f.master.converted }
  function IsRefunded(f: FeaturedRow): bool { f.master.wasRefunded == 1 }
  function IsReturning(f: FeaturedRow): bool { f.customerSegment == Some("Returning") }

  /** The master invariant the source relies on, on every row. */
  ghost predicate ConsistentTable(master: seq<FeaturedRow>) {
    forall f :: f in master ==> ConsistentMaster(f.master)
  }

  // ---------------------------------------------------------------------
  // Report records

  datatype Traffic = Traffic(
    totalSessions: nat,
    uniqueUsers: nat,
    sessionsByChannel: seq<Agg<string>>,
    totalPageviews: int)

  /** A group key and the mean of a column over the group. */
  datatype KeyRate = KeyRate(key: string, rate: real)

  datatype FunnelSteps = FunnelSteps(sessions: int, products: int, cart: int, shipping: int, billing: int, purchase: int)

  datatype Conversion = Conversion(
    overallConversionRate: real,
    totalConversions: int,
    conversionByChannel: seq<KeyRate>,
    conversionByDevice: seq<KeyRate>,
    funnelSteps: Option<FunnelSteps>)

  datatype Revenue = Revenue(
    totalRevenue: int,
    averageOrderValue: real,
    revenuePerSession: real,
    revenueByChannel: seq<Agg<string>>)

  datatype ProductRow = ProductRow(productName: string, salesCount: nat, totalRevenue: int, totalMargin: int)

  /** `{}` when there are no items, else the list of product records. */
  datatype ProductReport = NoItems | Products(rows: seq<ProductRow>)

  datatype Quality = Quality(
    overallRefundRate: real,
    totalRefunds: int,
    repeatCustomerRate: Option<real>,
    atRiskSegments: seq<Agg<string>>)

  /** The five sections of `get_dashboard_data`. */
  datatype Dashboard = Dashboard(
    traffic: Traffic,
    conversion: Conversion,
    revenue: Revenue,
    quality: Quality,
    products: ProductReport)

  const AtRiskLimit := 5

  /** `groupby(key)[col].mean()`: each group's mean, from the grouped sums. */
  function GroupMeans(g: seq<Agg<string>>): (r: seq<KeyRate>)
    requires forall a :: a in g ==> a.count >= 1
    ensures |r| == |g|
    ensures forall i :: 0 <= i < |g| ==> r[i].key == g[i].key && IsRatio(r[i].rate, g[i].total, g[i].count)
  {
    if g == [] then []
    else
      assert g[0] in g;
      [KeyRate(g[0].key, Share(g[0].total, g[0].count))] + GroupMeans(g[1..])
  }

  function KeyRateKey(r: KeyRate): string { r.key }

  /** `groupby(key)[col].mean()` of the rows `s`: one entry per key, each
      the mean of `v` over that key's rows, and every keyed row's key has
      an entry. */
  ghost predicate IsMeanTable<T>(r: seq<KeyRate>, s: seq<T>, key: T -> Option<string>, v: T -> int) {
    && KeysDistinct(r, KeyRateKey)
    && (forall e :: e in r ==>
          GroupCount(s, key, e.key) >= 1 && IsRatio(e.rate, GroupSum(s, key, v, e.key), GroupCount(s, key, e.key)))
    && (forall x :: x in s && key(x).Some? ==> exists e :: e in r && e.key == key(x).value)
  }

  /** The means of a grouped table are the grouped means of its rows. */
  lemma GroupMeansIsMeanTable<T>(g: seq<Agg<string>>, s: seq<T>, key: T -> Option<string>, v: T -> int)
    requires IsGroupTable(g, s, key, v)
    ensures IsMeanTable(GroupMeans(g), s, key, v)
  {
    var r := GroupMeans(g);
    forall i, j | 0 <= i < j < |r| ensures KeyRateKey(r[i]) != KeyRateKey(r[j]) {
      assert AggKey(g[i]) != AggKey(g[j]);
    }
    forall e | e in r
      ensures GroupCount(s, key, e.key) >= 1 && IsRatio(e.rate, GroupSum(s, key, v, e.key), GroupCount(s, key, e.key))
    {
      var i :| 0 <= i < |r| && r[i] == e;
      assert g[i] in g;
    }
    forall x | x in s && key(x).Some? ensures exists e :: e in r && e.key == key(x).value {
      var a :| a in g && a.key == key(x).value;
      var i :| 0 <= i < |g| && g[i] == a;
      assert r[i] in r;
    }
  }

  /** Each grouped mean of a 0/1 flag is a share in [0, 1]. */
  lemma {:induction false} GroupMeansOfFlags<T>(rows: seq<T>, s: seq<T>, key: T -> Option<string>, v: T -> int, g: seq<Agg<string>>)
    requires IsGroupTable(g, s, key, v)
    requires forall x :: x in s ==> 0 <= v(x) <= 1
    ensures forall r :: r in GroupMeans(g) ==> 0.0 <= r.rate <= 1.0
  {
    var r := GroupMeans(g);
    forall i | 0 <= i < |r| ensures 0.0 <= r[i].rate <= 1.0 {
      var a := g[i];
      assert a in g;
      var members := Filter(s, HasKey(key, a.key));
      assert forall x :: x in members ==> x in s;
      SumOfFlagsBounded(members, v);
      FilterIsCount(s, HasKey(key, a.key));
      assert 0 <= a.total <= a.count;
      RatioUnique(r[i].rate, a.total, a.count);
    }
  }

  /** `groupby('product_name').agg(count, sum, sum)` for the listed names. */
  function ProductRows(items: seq<EnrichedItem>, names: seq<string>): (r: seq<ProductRow>)
    ensures |r| == |names|
    ensures forall i :: 0 <= i < |names| ==>
              r[i] == ProductRow(names[i], GroupCount(items, ProductNameKey, names[i]),
                                 GroupSum(items, ProductNameKey, ItemPrice, names[i]),
                                 GroupSum(items, ProductNameKey, ItemMargin, names[i]))
  {
    if names == [] then []
    else
      [ProductRow(names[0], GroupCount(items, ProductNameKey, names[0]),
                  GroupSum(items, ProductNameKey, ItemPrice, names[0]),
                  GroupSum(items, ProductNameKey, ItemMargin, names[0]))]
      + ProductRows(items, names[1..])
  }

  function ProductNameKey(x: EnrichedItem): Option<string> { Some(x.productName) }
  function ItemPrice(x: EnrichedItem): int { x.price }
  function ItemMargin(x: EnrichedItem): int { x.margin }
  function ProductRevenueKey(p: ProductRow): real { p.totalRevenue as real }
  function ProductNameOf(p: ProductRow): string { p.productName }

  /** `head(n)`. */
  function Head<T>(s: seq<T>, n: nat): (r: seq<T>)
    ensures |r| == if |s| <= n then |s| else n
    ensures r == s[..|r|]
    ensures |s| <= n ==> r == s
  {
    if |s| <= n then s else s[..n]
  }

  /** The first `n` rows of a table sorted by count, descending, are the
      largest: no row left out has a larger count than a row kept. */
  lemma HeadIsTop<K>(g: seq<Agg<K>>, n: nat)
    requires SortedBy(g, CountKey, true)
    ensures forall a, b :: (a in Head(g, n) && b in g && b !in Head(g, n)) ==> b.count <= a.count
  {
    var head := Head(g, n);
    forall a, b | a in head && b in g && b !in head ensures b.count <= a.count {
      var i :| 0 <= i < |head| && head[i] == a;
      var j :| 0 <= j < |g| && g[j] == b;
      assert forall k :: 0 <= k < |head| ==> g[k] == head[k];
      assert g[i] == a;
      assert i < j;
      assert Ordered(CountKey(g[i]), CountKey(g[j]), true);
    }
  }

  /** No two per-product rows share a name. */
  lemma ProductRowsDistinct(items: seq<EnrichedItem>, names: seq<string>)
    requires forall i, j :: 0 <= i < j < |names| ==> names[i] != names[j]
    ensures KeysDistinct(ProductRows(items, names), ProductNameOf)
  {
    var rows := ProductRows(items, names);
    forall i, j | 0 <= i < j < |rows| ensures ProductNameOf(rows[i]) != ProductNameOf(rows[j]) {
      assert rows[i].productName == names[i] && rows[j].productName == names[j];
    }
  }

  /** Each per-product row carries its name's totals, and a name that
      occurs among the items has at least one sale. */
  lemma ProductRowsTotals(items: seq<EnrichedItem>, names: seq<string>)
    requires forall k :: k in names ==> exists x :: x in items && ProductNameKey(x) == Some(k)
    ensures forall r :: r in ProductRows(items, names) ==>
              && r.salesCount == GroupCount(items, ProductNameKey, r.productName)
              && r.salesCount >= 1
              && r.totalRevenue == GroupSum(items, ProductNameKey, ItemPrice, r.productName)
              && r.totalMargin == GroupSum(items, ProductNameKey, ItemMargin, r.productName)
  {
    var rows := ProductRows(items, names);
    forall r | r in rows ensures r.salesCount >= 1 {
      var i :| 0 <= i < |rows| && rows[i] == r;
      assert names[i] in names;
      NameSold(items, names[i]);
    }
  }

  /** A product name that occurs among the items has at least one sale. */
  lemma NameSold(items: seq<EnrichedItem>, k: string)
    requires exists x :: x in items && ProductNameKey(x) == Some(k)
    ensures GroupCount(items, ProductNameKey, k) >= 1
  {
    var x :| x in items && ProductNameKey(x) == Some(k);
    assert x in Filter(items, HasKey(ProductNameKey, k));
  }

  /** Every item's product has a row. */
  lemma ProductRowsCover(items: seq<EnrichedItem>, names: seq<string>)
    requires forall x :: x in items ==> x.productName in names
    ensures forall x :: x in items ==> exists r :: r in ProductRows(items, names) && r.productName == x.productName
  {
    var rows := ProductRows(items, names);
    forall x | x in items ensures exists r :: r in rows && r.productName == x.productName {
      var i :| 0 <= i < |names| && names[i] == x.productName;
      assert rows[i] in rows;
    }
  }

  // ---------------------------------------------------------------------
  // The metrics object

  /** `BearCartMetrics`: the tables `load_data` reads, as fields. */
  class Metrics {
    var masterColumns: set<string>
    var master: seq<FeaturedRow>
    var orders: seq<ServerOrder>
    var items: seq<EnrichedItem>

    constructor (masterColumns: set<string>, master: seq<FeaturedRow>, orders: seq<ServerOrder>, items: seq<EnrichedItem>)
      ensures this.masterColumns == masterColumns && this.master == master
      ensures this.orders == orders && this.items == items
    {
      this.masterColumns := masterColumns;
      this.master := master;
      this.orders := orders;
      this.items := items;
    }

    /** `df['user_id'].nunique()`. */
    function UniqueUsers(): (n: nat)
      reads this
      ensures n == |Image(master, UserOf)|
      ensures n <= |master|
    {
      var users := set f | f in master :: UserOf(f);
      assert users == Image(master, UserOf);
      ImageBound(master, UserOf);
      |users|
    }

    /** `df['traffic_channel'].value_counts()`: every session has a channel,
        so the counts add up to the number of sessions. */
    function SessionsByChannel(): (g: seq<Agg<string>>)
      reads this
      ensures IsGroupTable(g, master, ChannelKey, One)
      ensures SortedBy(g, CountKey, true)
      ensures Sum(g, AggCount) == |master|
    {
      var g := SortedGroupBy(master, ChannelKey, One, CountKey, true);
      GroupTableOfTotalKey(g, master, ChannelKey, One);
      g
    }

    /** `traffic_metrics`. */
    function TrafficMetrics(): (t: Traffic)
      reads this
      ensures t.totalSessions == |master|
      ensures t.uniqueUsers <= |master|
      ensures "user_id" in masterColumns ==> t.uniqueUsers == |Image(master, UserOf)|
      ensures "user_id" !in masterColumns ==> t.uniqueUsers == 0
      ensures IsGroupTable(t.sessionsByChannel, master, ChannelKey, One)
      ensures SortedBy(t.sessionsByChannel, CountKey, true)
      ensures Sum(t.sessionsByChannel, AggCount) == |master|
      ensures "total_pageviews" in masterColumns ==> t.totalPageviews == Sum(master, PageviewsOf)
      ensures "total_pageviews" !in masterColumns ==> t.totalPageviews == 0
    {
      Traffic(
        |master|,
        if "user_id" in masterColumns then UniqueUsers() else 0,
        SessionsByChannel(),
        if "total_pageviews" in masterColumns then Sum(master, PageviewsOf) else 0)
    }

    /** The funnel step totals, when the master has funnel columns. */
    function Funnel(): (r: Option<FunnelSteps>)
      reads this
      ensures r.Some? <==> "step_home" in masterColumns
      ensures r.Some? ==> r.value.sessions == Sum(master, StepFlagOf(Home))
                          && r.value.products == Sum(master, StepFlagOf(ProductPage))
                          && r.value.cart == Sum(master, StepFlagOf(Cart))
                          && r.value.shipping == Sum(master, StepFlagOf(Shipping))
                          && r.value.billing == Sum(master, StepFlagOf(Billing))
                          && r.value.purchase == Sum(master, StepFlagOf(ThankYou))
      ensures r.Some? && ConsistentTable(master) ==>
                var f := r.value;
                && 0 <= f.sessions <= |master| && 0 <= f.products <= |master| && 0 <= f.cart <= |master|
                && 0 <= f.shipping <= |master| && 0 <= f.billing <= |master| && 0 <= f.purchase <= |master|
    {
      if "step_home" in masterColumns then
        StepSumsBounded();
        Some(FunnelSteps(Sum(master, StepFlagOf(Home)), Sum(master, StepFlagOf(ProductPage)),
                         Sum(master, StepFlagOf(Cart)), Sum(master, StepFlagOf(Shipping)),
                         Sum(master, StepFlagOf(Billing)), Sum(master, StepFlagOf(ThankYou))))
      else None
    }

    /** On a consistent table each step total counts sessions, so it is at
        most the number of sessions. */
    lemma StepSumsBounded()
      ensures ConsistentTable(master) ==>
                forall step: Step :: 0 <= Sum(master, StepFlagOf(step)) <= |master|
    {
      if ConsistentTable(master) {
        forall step: Step ensures 0 <= Sum(master, StepFlagOf(step)) <= |master| {
          forall f | f in master ensures 0 <= StepFlagOf(step)(f) <= 1 {
            assert ConsistentMaster(f.master);
            if f.master.funnel.None? {
              assert StepOf(NoPageviews, step) == 0;
            }
          }
          SumOfFlagsBounded(master, StepFlagOf(step));
        }
      }
    }

    /** `conversion_metrics`. */
    function ConversionMetrics(): (c: Conversion)
      reads this
      ensures c.totalConversions == Sum(master, ConversionFlagOf)
      ensures |master| == 0 ==> c.overallConversionRate == 0.0
      ensures |master| > 0 ==> IsRatio(c.overallConversionRate, c.totalConversions, |master|)
      ensures ConsistentTable(master) ==> c.totalConversions == Count(master, IsConverted)
      ensures ConsistentTable(master) ==> 0.0 <= c.overallConversionRate <= 1.0
      ensures IsMeanTable(c.conversionByChannel, master, ChannelKey, ConversionFlagOf)
      ensures "device_type" in masterColumns ==> IsMeanTable(c.conversionByDevice, master, DeviceKey, ConversionFlagOf)
      ensures "device_type" !in masterColumns ==> c.conversionByDevice == []
      ensures c.funnelSteps == Funnel()
    {
      var converted := Sum(master, ConversionFlagOf);
      ConvertedCount();
      var byChannel := GroupBy(master, ChannelKey, ConversionFlagOf);
      var byDevice := GroupBy(master, DeviceKey, ConversionFlagOf);
      GroupMeansIsMeanTable(byChannel, master, ChannelKey, ConversionFlagOf);
      GroupMeansIsMeanTable(byDevice, master, DeviceKey, ConversionFlagOf);
      Conversion(
        Share(converted, |master|),
        converted,
        GroupMeans(byChannel),
        if "device_type" in masterColumns then GroupMeans(byDevice) else [],
        Funnel())
    }

    /** On a consistent table the flag sum counts the converted sessions. */
    lemma ConvertedCount()
      ensures ConsistentTable(master) ==> Sum(master, ConversionFlagOf) == Count(master, IsConverted)
      ensures ConsistentTable(master) ==> Count(master, IsConverted) <= |master|
    {
      if ConsistentTable(master) {
        forall f | f in master ensures ConversionFlagOf(f) == (if IsConverted(f) then 1 else 0) {
          assert ConsistentMaster(f.master);
        }
        CountIsIndicatorSum(master, IsConverted, ConversionFlagOf);
        FilterIsCount(master, IsConverted);
      }
    }

    /** Each channel's and device's conversion rate is the share of its
        converted sessions, in [0, 1] on a consistent table. */
    lemma ConversionRatesInUnit()
      requires ConsistentTable(master)
      ensures forall r :: r in ConversionMetrics().conversionByChannel ==> 0.0 <= r.rate <= 1.0
      ensures forall r :: r in ConversionMetrics().conversionByDevice ==> 0.0 <= r.rate <= 1.0
    {
      forall f | f in master ensures 0 <= ConversionFlagOf(f) <= 1 {
        assert ConsistentMaster(f.master);
      }
      var byChannel := GroupBy(master, ChannelKey, ConversionFlagOf);
      var byDevice := GroupBy(master, DeviceKey, ConversionFlagOf);
      GroupMeansOfFlags(master, master, ChannelKey, ConversionFlagOf, byChannel);
      GroupMeansOfFlags(master, master, DeviceKey, ConversionFlagOf, byDevice);
    }

    /** `revenue_metrics`. */
    function RevenueMetrics(): (r: Revenue)
      reads this
      ensures r.totalRevenue == Sum(master, OrderValueOfRow)
      ensures |master| == 0 ==> r.revenuePerSession == 0.0
      ensures |master| > 0 ==> IsRatio(r.revenuePerSession, r.totalRevenue, |master|)
      ensures var conv := Filter(master, IsConverted);
              && (|conv| == 0 ==> r.averageOrderValue == 0.0)
              && (|conv| > 0 ==> IsRatio(r.averageOrderValue, Sum(conv, OrderValueOfRow), |conv|))
      ensures IsGroupTable(r.revenueByChannel, master, ChannelKey, OrderValueOfRow)
      ensures Sum(r.revenueByChannel, AggTotal) == r.totalRevenue
    {
      var total := Sum(master, OrderValueOfRow);
      var conv := Filter(master, IsConverted);
      var byChannel := GroupBy(master, ChannelKey, OrderValueOfRow);
      GroupTableOfTotalKey(byChannel, master, ChannelKey, OrderValueOfRow);
      Revenue(total, Share(Sum(conv, OrderValueOfRow), |conv|), Share(total, |master|), byChannel)
    }

    /** `product_metrics`. */
    function ProductMetrics(): (p: ProductReport)
      reads this
      ensures p.NoItems? <==> items == []
      ensures p.Products? ==>
                && KeysDistinct(p.rows, ProductNameOf)
                && SortedBy(p.rows, ProductRevenueKey, true)
                && (forall r :: r in p.rows ==>
                      && r.salesCount == GroupCount(items, ProductNameKey, r.productName)
                      && r.salesCount >= 1
                      && r.totalRevenue == GroupSum(items, ProductNameKey, ItemPrice, r.productName)
                      && r.totalMargin == GroupSum(items, ProductNameKey, ItemMargin, r.productName))
                && (forall x :: x in items ==> exists r :: r in p.rows && r.productName == x.productName)
    {
      if items == [] then NoItems
      else
        var names := PresentKeys(items, ProductNameKey);
        var rows := ProductRows(items, names);
        var sorted := SortBy(rows, ProductRevenueKey, true);
        ProductRowsFacts(items, names, rows, sorted);
        Products(sorted)
    }

    /** The per-product table has one row per name, with that name's
        totals, and sorting keeps it so. */
    static lemma ProductRowsFacts(items: seq<EnrichedItem>, names: seq<string>, rows: seq<ProductRow>, sorted: seq<ProductRow>)
      requires names == PresentKeys(items, ProductNameKey)
      requires rows == ProductRows(items, names)
      requires sorted == SortBy(rows, ProductRevenueKey, true)
      ensures KeysDistinct(sorted, ProductNameOf)
      ensures forall r :: r in sorted ==>
                && r.salesCount == GroupCount(items, ProductNameKey, r.productName)
                && r.salesCount >= 1
                && r.totalRevenue == GroupSum(items, ProductNameKey, ItemPrice, r.productName)
                && r.totalMargin == GroupSum(items, ProductNameKey, ItemMargin, r.productName)
      ensures forall x :: x in items ==> exists r :: r in sorted && r.productName == x.productName
    {
      ProductRowsDistinct(items, names);
      ProductRowsTotals(items, names);
      NamesCoverItems(items, names);
      ProductRowsCover(items, names);
      SortedProductRows(items, rows, sorted);
    }

    /** Every item's product name is among the present names. */
    static lemma NamesCoverItems(items: seq<EnrichedItem>, names: seq<string>)
      requires names == PresentKeys(items, ProductNameKey)
      ensures forall x :: x in items ==> x.productName in names
    {
      forall x | x in items ensures x.productName in names {
        assert ProductNameKey(x) == Some(x.productName);
      }
    }

    /** Sorting the per-product rows keeps what is known of them. */
    static lemma SortedProductRows(items: seq<EnrichedItem>, rows: seq<ProductRow>, sorted: seq<ProductRow>)
      requires sorted == SortBy(rows, ProductRevenueKey, true)
      requires KeysDistinct(rows, ProductNameOf)
      requires forall r :: r in rows ==>
                && r.salesCount == GroupCount(items, ProductNameKey, r.productName)
                && r.salesCount >= 1
                && r.totalRevenue == GroupSum(items, ProductNameKey, ItemPrice, r.productName)
                && r.totalMargin == GroupSum(items, ProductNameKey, ItemMargin, r.productName)
      requires forall x :: x in items ==> exists r :: r in rows && r.productName == x.productName
      ensures KeysDistinct(sorted, ProductNameOf)
      ensures forall r :: r in sorted ==>
                && r.salesCount == GroupCount(items, ProductNameKey, r.productName)
                && r.salesCount >= 1
                && r.totalRevenue == GroupSum(items, ProductNameKey, ItemPrice, r.productName)
                && r.totalMargin == GroupSum(items, ProductNameKey, ItemMargin, r.productName)
      ensures forall x :: x in items ==> exists r :: r in sorted && r.productName == x.productName
    {
      SortByKeepsRows(rows, ProductRevenueKey, true);
      assert multiset(rows) == multiset(sorted);
      PermutationKeepsKeysDistinct(rows, sorted, ProductNameOf);
    }

    /** `quality_metrics`. */
    function QualityMetrics(): (q: Quality)
      reads this
      ensures var refunded := Count(master, IsRefunded);
              var converted := Count(master, IsConverted);
              && (converted == 0 ==> q.overallRefundRate == 0.0)
              && (converted > 0 ==> IsRatio(q.overallRefundRate, refunded, converted))
      ensures q.totalRefunds == Sum(master, RefundFlagOf)
      ensures "customer_segment" !in masterColumns ==> q.repeatCustomerRate == Some(0.0)
      ensures "customer_segment" in masterColumns ==>
                (q.repeatCustomerRate.None? <==> |master| == 0)
                && (|master| > 0 ==> IsRatio(q.repeatCustomerRate.value, Count(master, IsReturning), |master|))
      ensures |q.atRiskSegments| == if |AtRiskGroups()| <= AtRiskLimit then |AtRiskGroups()| else AtRiskLimit
      ensures q.atRiskSegments == AtRiskGroups()[..|q.atRiskSegments|]
      ensures forall a :: a in q.atRiskSegments ==>
                a.count == Count(master, (f: FeaturedRow) => IsRefunded(f) && f.trafficChannel == a.key)
      ensures SortedBy(q.atRiskSegments, CountKey, true)
    {
      var refunded := Count(master, IsRefunded);
      var converted := Count(master, IsConverted);
      var all := AtRiskGroups();
      Quality(
        Share(refunded, converted),
        Sum(master, RefundFlagOf),
        if "customer_segment" !in masterColumns then Some(0.0)
        else if |master| == 0 then None
        else Some(Share(Count(master, IsReturning), |master|)),
        Head(all, AtRiskLimit))
    }

    /** `value_counts` of the channel over the refunded sessions, before
        `head(5)`. */
    function AtRiskGroups(): (g: seq<Agg<string>>)
      reads this
      ensures IsGroupTable(g, Filter(master, IsRefunded), ChannelKey, One)
      ensures SortedBy(g, CountKey, true)
      ensures forall a :: a in g ==>
                a.count == Count(master, (f: FeaturedRow) => IsRefunded(f) && f.trafficChannel == a.key)
    {
      var refundedRows := Filter(master, IsRefunded);
      var g := SortedGroupBy(refundedRows, ChannelKey, One, CountKey, true);
      forall a | a in g
        ensures a.count == Count(master, (f: FeaturedRow) => IsRefunded(f) && f.trafficChannel == a.key)
      {
        var both := (f: FeaturedRow) => IsRefunded(f) && f.trafficChannel == a.key;
        forall f | f in master ensures both(f) == (IsRefunded(f) && HasKey(ChannelKey, a.key)(f)) {
        }
        FilterFilter(master, IsRefunded, HasKey(ChannelKey, a.key), both);
        FilterIsCount(master, both);
      }
      g
    }

    /** `head(5)` keeps the most refunded channels: a channel left out has
        no more refunded sessions than any channel kept. */
    lemma AtRiskAreTop()
      ensures forall a, b :: (a in QualityMetrics().atRiskSegments && b in AtRiskGroups()
                              && b !in QualityMetrics().atRiskSegments) ==> b.count <= a.count
    {
      HeadIsTop(AtRiskGroups(), AtRiskLimit);
    }

    /** On a consistent table the refund rate is a share in [0, 1], the
        refund total counts the refunded sessions, and the refunded sessions
        are among the converted ones. */
    lemma QualityRatesInUnit()
      ensures ConsistentTable(master) ==>
                && 0.0 <= QualityMetrics().overallRefundRate <= 1.0
                && QualityMetrics().totalRefunds == Count(master, IsRefunded) <= Count(master, IsConverted)
    {
      if !ConsistentTable(master) { return; }
      forall f | f in master ensures IsRefunded(f) ==> IsConverted(f) {
        assert ConsistentMaster(f.master);
      }
      CountMonotone(master, IsRefunded, IsConverted);
      forall f | f in master ensures RefundFlagOf(f) == (if IsRefunded(f) then 1 else 0) {
        assert ConsistentMaster(f.master);
      }
      CountIsIndicatorSum(master, IsRefunded, RefundFlagOf);
    }

    /** `get_dashboard_data`: the five reports, under their five keys. On a
        consistent table the sections agree: the conversions are among the
        sessions and the refunded sessions among the conversions. */
    function DashboardData(): (d: Dashboard)
      reads this
      ensures d.traffic == TrafficMetrics() && d.conversion == ConversionMetrics()
      ensures d.revenue == RevenueMetrics() && d.quality == QualityMetrics() && d.products == ProductMetrics()
      ensures ConsistentTable(master) ==>
                d.quality.totalRefunds <= d.conversion.totalConversions <= d.traffic.totalSessions
    {
      ConvertedCount();
      QualityRatesInUnit();
      Dashboard(TrafficMetrics(), ConversionMetrics(), RevenueMetrics(), QualityMetrics(), ProductMetrics())
    }
  }

  /** The tables the server pipeline writes are consistent: rows built by
      `create_master_dataset` (with or without the funnel table of
      `clean_pageviews`) and extended by `engineer_features`. */
  lemma PipelineConsistent(sessions: seq<ServerSession>, orders: seq<ServerOrder>, refunds: seq<ServerRefund>,
                           pageviews: Option<seq<Pageview>>, masterColumns: set<string>,
                           items: seq<ServerItem>, cal: Calendar)
    ensures var funnel := if pageviews.Some? then Some(CleanPageviewRows(pageviews.value)) else None;
            var master := MasterRows(sessions, orders, refunds, funnel);
            ConsistentTable(Map(master, (m: MasterRow) => FeatureRow(masterColumns, sessions, orders, items, cal, m)))
  {
    var funnel := if pageviews.Some? then Some(CleanPageviewRows(pageviews.value)) else None;
    if pageviews.Some? { CleanPageviewRowsBinary(pageviews.value); }
    MasterRowsConsistent(sessions, orders, refunds, funnel);
    var master := MasterRows(sessions, orders, refunds, funnel);
    var featured := Map(master, (m: MasterRow) => FeatureRow(masterColumns, sessions, orders, items, cal, m));
    forall f | f in featured ensures ConsistentMaster(f.master) {
      var i :| 0 <= i < |featured| && featured[i] == f;
      assert master[i] in master;
    }
  }
}
