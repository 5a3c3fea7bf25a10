/** The API server's cleaning pipeline (`server/services/data_cleaner.py`):
    a cleaner object that keeps a report of how many rows each rule
    removed, and that turns the raw Maven Fuzzy Factory tables into cleaned
    sessions, orders, refunds, products and order items, a per-session
    pageview funnel, and the per-session master table.

    Frames are objects, as in pandas: a cleaning method returns a new frame,
    and where the source assigns a column of a frame it was given (the
    item price columns, the orders' `was_refunded` flag) the method
    modifies that frame. Each method is specified by a function on rows;
    the properties are stated on those functions. Numeric cells have
    already been through `to_numeric(errors="coerce")` and dates through
    `to_datetime`: where the source coerces, an unparseable cell is None;
    where it does not (the session and order dates re-read by the date
    rules and the refund dates, lines 97, 146 and 149), pandas raises on
    such a cell, and the model takes those cells as parsed. Money is in
    integer cents. */
module ServerCleaner {
  import opened Seqs
  import opened Sorting
  import opened Grouping
  import opened Text

  /** A data frame: the names of its columns and its rows. A row field whose
      column is absent holds None. */
  class Frame<R> {
    var columns: set<string>
    var rows: seq<R>

    constructor (columns: set<string>, rows: seq<R>)
      ensures this.columns == columns && this.rows == rows
    {
      this.columns := columns;
      this.rows := rows;
    }
  }

  /** `df.rename(columns=m)` on the column names. */
  function Renamed(columns: set<string>, m: map<string, string>): (r: set<string>)
    ensures forall c :: c in columns && c !in m ==> c in r
    ensures forall c :: c in columns && c in m ==> m[c] in r
    ensures forall c :: c in r ==> (c in columns && c !in m) || exists d :: d in columns && d in m && m[d] == c
  {
    set c | c in columns :: if c in m then m[c] else c
  }

  // Keys of the cleaning report.
  const DuplicatesKey := "sessions_duplicates"
  const BotsKey := "sessions_removed_bots"
  const OrdersDateKey := "orders_removed_date"
  const OrdersNegativeKey := "orders_removed_negative"
  const RefundsKey := "refunds_removed"

  // ---------------------------------------------------------------------
  // Sessions

  /** One row of `website_sessions` after the column renames. */
  datatype ServerSession = ServerSession(
    sessionId: int,
    sessionDate: Option<int>,
    userId: int,
    isRepeatSession: Option<int>,
    trafficSource: Option<string>,
    utmCampaign: Option<string>,
    deviceType: Option<string>,
    sessionDuration: Option<int>)

  const SessionRenames: map<string, string> :=
    map["website_session_id" := "session_id", "created_at" := "session_date", "utm_source" := "traffic_source"]

  /** Bot thresholds on the session duration, in seconds. */
  const MinDuration := 1
  const MaxDuration := 28800

  function ServerSessionId(s: ServerSession): int { s.sessionId }
  function SessionDateCell(s: ServerSession): Option<int> { s.sessionDate }

  /** `fillna('Direct')` on the traffic source. */
  function FillDirect(s: ServerSession): ServerSession {
    s.(trafficSource := Some(s.trafficSource.GetOr("Direct")))
  }

  /** The row after the source default, when the column exists. */
  function Defaulted(columns: set<string>, s: ServerSession): ServerSession {
    if "traffic_source" in columns then FillDirect(s) else s
  }

  /** The bot mask: a known duration under a second or over eight hours. A
      missing duration compares false on both sides and is kept. */
  predicate IsBot(s: ServerSession) {
    s.sessionDuration.Some? && (s.sessionDuration.value < MinDuration || s.sessionDuration.value > MaxDuration)
  }

  function NotBot(s: ServerSession): bool { !IsBot(s) }

  /** The sessions after keep-first de-duplication on `session_id` and the
      source default, before the bot filter. */
  function DedupedSessions(columns: set<string>, rows: seq<ServerSession>): (r: seq<ServerSession>)
    ensures KeysDistinct(r, ServerSessionId)
    ensures |r| + Duplicated(rows, ServerSessionId) == |rows|
  {
    var dedup := DropDuplicates(rows, ServerSessionId);
    DropDuplicatesCount(rows, ServerSessionId);
    if "traffic_source" in columns then
      MapKeepsKeysDistinct(dedup, FillDirect, ServerSessionId);
      Map(dedup, FillDirect)
    else dedup
  }

  /** `sessions_removed_bots`: the rows the bot mask removes, or 0 when there
      is no `session_duration` column. */
  function BotsRemoved(columns: set<string>, rows: seq<ServerSession>): (n: nat)
    ensures n + Duplicated(rows, ServerSessionId) <= |rows|
    ensures n == 0 <==> "session_duration" !in columns || forall x :: x in DedupedSessions(columns, rows) ==> !IsBot(x)
  {
    var deduped := DedupedSessions(columns, rows);
    CountZero(deduped, IsBot);
    if "session_duration" in columns then Count(deduped, IsBot) else 0
  }

  /** The rows `clean_sessions` returns, given the renamed column names. */
  function CleanSessionRows(columns: set<string>, rows: seq<ServerSession>): (r: seq<ServerSession>)
    ensures KeysDistinct(r, ServerSessionId)
    ensures "traffic_source" in columns ==> forall x :: x in r ==> x.trafficSource.Some?
    ensures "session_duration" in columns ==> forall x :: x in r ==> !IsBot(x)
    ensures |r| + Duplicated(rows, ServerSessionId) + BotsRemoved(columns, rows) == |rows|
  {
    var filled := DedupedSessions(columns, rows);
    if "session_duration" in columns then
      FilterKeepsKeysDistinct(filled, NotBot, ServerSessionId);
      FilterIsCount(filled, NotBot);
      CountComplement(filled, IsBot, NotBot);
      Filter(filled, NotBot)
    else filled
  }

  /** A session met for the first time under its id, and not a bot when
      durations are known, survives with its source defaulted. */
  lemma CleanSessionsKeeps(columns: set<string>, rows: seq<ServerSession>, i: nat)
    requires i < |rows|
    requires forall j :: 0 <= j < i ==> rows[j].sessionId != rows[i].sessionId
    requires "session_duration" in columns ==> !IsBot(rows[i])
    ensures Defaulted(columns, rows[i]) in CleanSessionRows(columns, rows)
  {
    FirstRowSurvives(rows, ServerSessionId, i);
    var dedup := DropDuplicates(rows, ServerSessionId);
    var k :| 0 <= k < |dedup| && dedup[k] == rows[i];
    var filled := DedupedSessions(columns, rows);
    assert filled[k] == Defaulted(columns, rows[i]);
  }

  /** Every surviving session is the first row of its id, defaulted. */
  lemma CleanSessionsFirst(columns: set<string>, rows: seq<ServerSession>, x: ServerSession)
    requires x in CleanSessionRows(columns, rows)
    ensures exists i :: 0 <= i < |rows| && x == Defaulted(columns, rows[i])
                        && forall j :: 0 <= j < i ==> rows[j].sessionId != rows[i].sessionId
  {
    var dedup := DropDuplicates(rows, ServerSessionId);
    var k := DedupedIndex(columns, rows, x);
    var y := dedup[k];
    assert y in dedup;
    DropDuplicatesKeepsFirst(rows, ServerSessionId);
    var i := FirstIndex(rows, ServerSessionId, y.sessionId);
    assert y == rows[i];
  }

  /** The de-duplicated row a surviving session comes from. */
  lemma DedupedIndex(columns: set<string>, rows: seq<ServerSession>, x: ServerSession) returns (k: nat)
    requires x in CleanSessionRows(columns, rows)
    ensures k < |DropDuplicates(rows, ServerSessionId)|
    ensures x == Defaulted(columns, DropDuplicates(rows, ServerSessionId)[k])
  {
    var dedup := DropDuplicates(rows, ServerSessionId);
    var filled := DedupedSessions(columns, rows);
    assert x in filled;
    k :| 0 <= k < |filled| && filled[k] == x;
    if "traffic_source" in columns {
      assert filled == Map(dedup, FillDirect);
    }
  }

  // ---------------------------------------------------------------------
  // Orders

  /** One row of `orders` after the column renames. */
  datatype RawServerOrder = RawServerOrder(
    orderId: Option<int>,
    orderDate: Option<int>,
    sessionId: int,
    userId: int,
    orderValue: Option<int>)

  /** A cleaned order; `wasRefunded` is the column the master build adds. */
  datatype ServerOrder = ServerOrder(
    orderId: int,
    orderDate: Option<int>,
    sessionId: int,
    userId: int,
    orderValue: int,
    wasRefunded: Option<int>)

  const OrderRenames: map<string, string> :=
    map["created_at" := "order_date", "website_session_id" := "session_id", "price_usd" := "order_value"]

  function ServerOrderId(o: ServerOrder): int { o.orderId }
  function OrderDateCell(o: ServerOrder): Option<int> { o.orderDate }
  function OrderValueOf(o: ServerOrder): int { o.orderValue }

  function HasOrderId(o: RawServerOrder): bool { o.orderId.Some? }
  function NullOrderId(o: RawServerOrder): bool { o.orderId.None? }

  /** `order_date < session_date` after the left merge with the sessions:
      false when either date is unknown, so unmatched orders pass. */
  function OrderBeforeSession(sessions: seq<ServerSession>): RawServerOrder -> bool {
    (o: RawServerOrder) => var sd := Lookup(sessions, ServerSessionId, SessionDateCell, o.sessionId);
         o.orderDate.Some? && sd.Some? && o.orderDate.value < sd.value
  }

  function OrderNotBeforeSession(sessions: seq<ServerSession>): RawServerOrder -> bool {
    (o: RawServerOrder) => !OrderBeforeSession(sessions)(o)
  }

  /** The orders with an id, after the date rule when the sessions have a
      `session_date` column. */
  function DateCheckedOrders(sessionColumns: set<string>, sessions: seq<ServerSession>,
                             rows: seq<RawServerOrder>): seq<RawServerOrder> {
    var withIds := Filter(rows, HasOrderId);
    if "session_date" in sessionColumns then Filter(withIds, OrderNotBeforeSession(sessions)) else withIds
  }

  /** `orders_removed_date`. */
  function InvalidDates(sessionColumns: set<string>, sessions: seq<ServerSession>, rows: seq<RawServerOrder>): (n: nat)
    ensures n + Count(rows, NullOrderId) <= |rows|
    ensures n == 0 <==> "session_date" !in sessionColumns
                        || forall o :: o in rows && o.orderId.Some? ==> !OrderBeforeSession(sessions)(o)
  {
    FilterIsCount(rows, HasOrderId);
    CountComplement(rows, HasOrderId, NullOrderId);
    if "session_date" in sessionColumns then
      CountZero(Filter(rows, HasOrderId), OrderBeforeSession(sessions));
      Count(Filter(rows, HasOrderId), OrderBeforeSession(sessions))
    else 0
  }

  predicate NegativeValue(o: RawServerOrder) { o.orderValue.Some? && o.orderValue.value < 0 }
  predicate MissingValue(o: RawServerOrder) { o.orderValue.None? }
  function KeptValue(o: RawServerOrder): bool { o.orderValue.Some? && o.orderValue.value >= 0 }
  function DroppedValue(o: RawServerOrder): bool { !KeptValue(o) }

  /** `orders_removed_negative`: only known negative values are counted;
      a missing value fails `>= 0` too and is dropped uncounted. */
  function NegativeOrders(sessionColumns: set<string>, sessions: seq<ServerSession>, rows: seq<RawServerOrder>): (n: nat)
    ensures n <= |rows|
    ensures n == 0 <==> forall o :: (o in rows && o.orderId.Some?
                                       && ("session_date" in sessionColumns ==> !OrderBeforeSession(sessions)(o)))
                                      ==> !NegativeValue(o)
  {
    var checked := DateCheckedOrders(sessionColumns, sessions, rows);
    CountZero(checked, NegativeValue);
    assert forall o :: o in checked <==>
             o in rows && o.orderId.Some? && ("session_date" in sessionColumns ==> !OrderBeforeSession(sessions)(o));
    Count(checked, NegativeValue)
  }

  /** An order row that passes the id and the value rules, as cleaned. */
  function ToServerOrder(o: RawServerOrder): (r: Option<ServerOrder>)
    ensures r.Some? <==> o.orderId.Some? && KeptValue(o)
  {
    if o.orderId.Some? && KeptValue(o) then
      Some(ServerOrder(o.orderId.value, o.orderDate, o.sessionId, o.userId, o.orderValue.value, None))
    else None
  }

  /** The rows `clean_orders` returns. */
  function CleanOrderRows(sessionColumns: set<string>, sessions: seq<ServerSession>,
                          rows: seq<RawServerOrder>): (r: seq<ServerOrder>)
    ensures forall x :: x in r ==> x.orderValue >= 0 && x.wasRefunded.None?
    ensures forall x :: x in r ==> exists o :: o in rows && ToServerOrder(o) == Some(x)
    ensures "session_date" in sessionColumns ==>
              forall o :: o in rows && ToServerOrder(o).Some? && ToServerOrder(o).value in r ==>
                !OrderBeforeSession(sessions)(o)
  {
    var checked := DateCheckedOrders(sessionColumns, sessions, rows);
    var r := FilterMap(checked, ToServerOrder);
    assert forall x :: x in r ==> exists o :: o in rows && ToServerOrder(o) == Some(x);
    r
  }

  /** Every row is cleaned, or counted under exactly one removal rule: a
      null id, the date rule, a negative value, or a missing value. */
  lemma CleanOrdersAccounting(sessionColumns: set<string>, sessions: seq<ServerSession>, rows: seq<RawServerOrder>)
    ensures var checked := DateCheckedOrders(sessionColumns, sessions, rows);
            |CleanOrderRows(sessionColumns, sessions, rows)| + Count(rows, NullOrderId)
              + InvalidDates(sessionColumns, sessions, rows) + NegativeOrders(sessionColumns, sessions, rows)
              + Count(checked, MissingValue) == |rows|
  {
    var withIds := Filter(rows, HasOrderId);
    var checked := DateCheckedOrders(sessionColumns, sessions, rows);
    FilterIsCount(rows, HasOrderId);
    CountComplement(rows, HasOrderId, NullOrderId);
    if "session_date" in sessionColumns {
      FilterIsCount(withIds, OrderNotBeforeSession(sessions));
      CountComplement(withIds, OrderBeforeSession(sessions), OrderNotBeforeSession(sessions));
    }
    assert forall o :: o in checked ==> o.orderId.Some?;
    FilterMapCount(checked, ToServerOrder, KeptValue);
    CountComplement(checked, KeptValue, DroppedValue);
    CountSplit(checked, NegativeValue, MissingValue, DroppedValue);
  }

  /** An order with an id and a non-negative value is kept unless it is
      dated before its known session; in particular an order with no
      matching session is kept. */
  lemma CleanOrdersKeeps(sessionColumns: set<string>, sessions: seq<ServerSession>,
                         rows: seq<RawServerOrder>, o: RawServerOrder)
    requires o in rows && ToServerOrder(o).Some?
    requires !OrderBeforeSession(sessions)(o) || forall s :: s in sessions ==> s.sessionId != o.sessionId
    ensures ToServerOrder(o).value in CleanOrderRows(sessionColumns, sessions, rows)
  {
    assert !OrderBeforeSession(sessions)(o);
    assert o in Filter(rows, HasOrderId);
    assert o in DateCheckedOrders(sessionColumns, sessions, rows);
  }

  // ---------------------------------------------------------------------
  // Refunds

  /** One item-level refund row after the rename. */
  datatype ServerRefund = ServerRefund(
    orderItemRefundId: int,
    refundDate: Option<int>,
    orderItemId: int,
    orderId: int,
    refundAmount: Option<int>)

  const RefundRenames: map<string, string> := map["created_at" := "refund_date"]

  /** `refund_date < order_date` after the left merge with the orders: false
      when either date is unknown. */
  function RefundBeforeOrder(orders: seq<ServerOrder>): ServerRefund -> bool {
    (r: ServerRefund) => var od := Lookup(orders, ServerOrderId, OrderDateCell, r.orderId);
         r.refundDate.Some? && od.Some? && r.refundDate.value < od.value
  }

  function RefundNotBeforeOrder(orders: seq<ServerOrder>): ServerRefund -> bool {
    (r: ServerRefund) => !RefundBeforeOrder(orders)(r)
  }

  /** `refunds_removed`. */
  function InvalidRefunds(orderColumns: set<string>, orders: seq<ServerOrder>, rows: seq<ServerRefund>): (n: nat)
    ensures n <= |rows|
    ensures n == 0 <==> "order_date" !in orderColumns || forall x :: x in rows ==> !RefundBeforeOrder(orders)(x)
  {
    CountZero(rows, RefundBeforeOrder(orders));
    if "order_date" in orderColumns then Count(rows, RefundBeforeOrder(orders)) else 0
  }

  /** The rows `clean_refunds` returns. */
  function CleanRefundRows(orderColumns: set<string>, orders: seq<ServerOrder>, rows: seq<ServerRefund>): (r: seq<ServerRefund>)
    ensures IsSubsequence(r, rows)
    ensures |r| + InvalidRefunds(orderColumns, orders, rows) == |rows|
    ensures "order_date" in orderColumns ==> forall x :: x in r ==> !RefundBeforeOrder(orders)(x)
    ensures forall x :: x in rows && !RefundBeforeOrder(orders)(x) ==> x in r
  {
    if "order_date" in orderColumns then
      FilterIsSubsequence(rows, RefundNotBeforeOrder(orders));
      FilterIsCount(rows, RefundNotBeforeOrder(orders));
      CountComplement(rows, RefundBeforeOrder(orders), RefundNotBeforeOrder(orders));
      Filter(rows, RefundNotBeforeOrder(orders))
    else
      SubsequenceRefl(rows);
      rows
  }

  /** A refund whose order is not in the orders table is kept. */
  lemma CleanRefundsKeepsUnmatched(orderColumns: set<string>, orders: seq<ServerOrder>, rows: seq<ServerRefund>, x: ServerRefund)
    requires x in rows
    requires forall o :: o in orders ==> o.orderId != x.orderId
    ensures x in CleanRefundRows(orderColumns, orders, rows)
  {
    assert !RefundBeforeOrder(orders)(x);
  }

  // ---------------------------------------------------------------------
  // Products

  datatype RawServerProduct = RawServerProduct(productId: Option<int>, launchDate: Option<int>, productName: Option<string>)
  datatype ServerProduct = ServerProduct(productId: int, launchDate: Option<int>, productName: Option<string>)

  const ProductRenames: map<string, string> := map["created_at" := "product_launch_date"]

  function ServerProductId(p: ServerProduct): int { p.productId }
  function ProductNameCell(p: ServerProduct): Option<string> { p.productName }
  function HasProductId(p: RawServerProduct): bool { p.productId.Some? }

  function ToProduct(p: RawServerProduct): Option<ServerProduct> {
    if p.productId.Some? then Some(ServerProduct(p.productId.value, p.launchDate, p.productName)) else None
  }

  /** The rows `clean_products` returns: exactly the products whose id is
      numeric. */
  function CleanProductRows(rows: seq<RawServerProduct>): (r: seq<ServerProduct>)
    ensures |r| == Count(rows, HasProductId)
    ensures forall p :: p in rows && p.productId.Some? ==> ServerProduct(p.productId.value, p.launchDate, p.productName) in r
    ensures forall q :: q in r ==> RawServerProduct(Some(q.productId), q.launchDate, q.productName) in rows
  {
    FilterMapCount(rows, ToProduct, HasProductId);
    var r := FilterMap(rows, ToProduct);
    assert forall p :: p in rows && p.productId.Some? ==> ToProduct(p).value in r;
    r
  }

  // ---------------------------------------------------------------------
  // Order items

  /** One row of `order_items`; the price and cost cells may be missing, and
      `margin` is the column `clean_order_items` adds. */
  datatype ServerItem = ServerItem(
    orderItemId: int,
    orderId: int,
    productId: int,
    price: Option<int>,
    cogs: Option<int>,
    margin: Option<int>)

  /** An order item enriched with its product's name. */
  datatype EnrichedItem = EnrichedItem(
    orderItemId: int,
    orderId: int,
    productId: int,
    price: int,
    cogs: int,
    margin: int,
    productName: string)

  const UnknownProduct := "Unknown Product"

  /** The three column assignments `clean_order_items` makes on the frame
      it is given: missing prices and costs become 0, and the margin is
      their difference. */
  function FillItemCosts(x: ServerItem): (y: ServerItem)
    ensures y.price == Some(x.price.GetOr(0)) && y.cogs == Some(x.cogs.GetOr(0))
    ensures y.margin == Some(y.price.value - y.cogs.value)
    ensures y.orderItemId == x.orderItemId && y.orderId == x.orderId && y.productId == x.productId
  {
    var p := x.price.GetOr(0);
    var c := x.cogs.GetOr(0);
    x.(price := Some(p), cogs := Some(c), margin := Some(p - c))
  }

  /** The left merge with the products on `product_id`, with `fillna`. */
  function Enrich(products: seq<ServerProduct>): ServerItem -> EnrichedItem {
    (x: ServerItem) =>
      var y := FillItemCosts(x);
      EnrichedItem(x.orderItemId, x.orderId, x.productId, y.price.value, y.cogs.value, y.margin.value,
                   Lookup(products, ServerProductId, ProductNameCell, x.productId).GetOr(UnknownProduct))
  }

  /** An enriched item keeps its ids, has its filled price and cost and
      their difference as margin, and is named after its product: "Unknown
      Product" when no product has its id, and the product's name (or
      "Unknown Product" for a missing name) when product ids are unique. */
  lemma EnrichItem(products: seq<ServerProduct>, x: ServerItem)
    ensures var y := Enrich(products)(x);
            && y.orderItemId == x.orderItemId && y.orderId == x.orderId && y.productId == x.productId
            && y.price == x.price.GetOr(0) && y.cogs == x.cogs.GetOr(0) && y.margin == y.price - y.cogs
            && ((forall p :: p in products ==> p.productId != x.productId) ==> y.productName == UnknownProduct)
            && (KeysDistinct(products, ServerProductId) ==>
                  forall p :: p in products && p.productId == x.productId ==>
                    y.productName == p.productName.GetOr(UnknownProduct))
  {
    if KeysDistinct(products, ServerProductId) {
      forall p | p in products && p.productId == x.productId
        ensures Enrich(products)(x).productName == p.productName.GetOr(UnknownProduct)
      {
        LookupUnique(products, ServerProductId, ProductNameCell, p);
      }
    }
  }

  /** `df_orders['order_id'].unique()`. */
  function OrderIds(orders: seq<ServerOrder>): set<int> {
    set o | o in orders :: o.orderId
  }

  function ItemOfOrders(ids: set<int>): EnrichedItem -> bool {
    (x: EnrichedItem) => x.orderId in ids
  }

  /** The rows `clean_order_items` returns. */
  function CleanItemRows(items: seq<ServerItem>, orders: seq<ServerOrder>, products: seq<ServerProduct>): (r: seq<EnrichedItem>)
    ensures forall y :: y in r ==> y.margin == y.price - y.cogs
    ensures forall y :: y in r ==> exists o :: o in orders && o.orderId == y.orderId
    ensures forall y :: y in r ==> exists x :: x in items && y == Enrich(products)(x)
    ensures forall x :: x in items && (exists o :: o in orders && o.orderId == x.orderId) ==> Enrich(products)(x) in r
    ensures forall y :: y in r && (forall p :: p in products ==> p.productId != y.productId) ==> y.productName == UnknownProduct
  {
    var merged := Map(items, Enrich(products));
    MergedItems(items, products, merged);
    Filter(merged, ItemOfOrders(OrderIds(orders)))
  }

  /** Enriching an item whose costs are already filled gives the same row,
      so the in-place fill does not change what is returned. */
  lemma ItemRowsAfterFill(items: seq<ServerItem>, orders: seq<ServerOrder>, products: seq<ServerProduct>)
    ensures CleanItemRows(items, orders, products)
            == Filter(Map(Map(items, FillItemCosts), Enrich(products)), ItemOfOrders(OrderIds(orders)))
  {
    forall x | x in items ensures Enrich(products)(x) == Enrich(products)(FillItemCosts(x)) {
      assert FillItemCosts(FillItemCosts(x)) == FillItemCosts(x);
    }
    MapMap(items, FillItemCosts, Enrich(products), Enrich(products));
  }

  /** The merged rows are exactly the enriched items. */
  lemma MergedItems(items: seq<ServerItem>, products: seq<ServerProduct>, merged: seq<EnrichedItem>)
    requires merged == Map(items, Enrich(products))
    ensures forall x :: x in items ==> Enrich(products)(x) in merged
    ensures forall y :: y in merged ==> exists x :: x in items && y == Enrich(products)(x)
  {
    forall x | x in items ensures Enrich(products)(x) in merged {
      var i :| 0 <= i < |items| && items[i] == x;
      assert merged[i] == Enrich(products)(x);
    }
    forall y | y in merged ensures exists x :: x in items && y == Enrich(products)(x) {
      var i :| 0 <= i < |merged| && merged[i] == y;
      assert items[i] in items;
    }
  }

  // ---------------------------------------------------------------------
  // Pageviews and the session funnel

  /** One row of `website_pageviews`. */
  datatype Pageview = Pageview(pageviewId: Option<int>, sessionId: Option<int>, url: Option<string>)

  /** A pageview that has both a session and a url. */
  datatype Visit = Visit(pageviewId: Option<int>, sessionId: int, url: string)

  function ToVisit(p: Pageview): Option<Visit> {
    if p.sessionId.Some? && p.url.Some? then Some(Visit(p.pageviewId, p.sessionId.value, p.url.value)) else None
  }

  /** The funnel steps, each recognised from the url. */
  datatype Step = Home | ProductPage | Cart | Shipping | Billing | ThankYou

  predicate Hits(step: Step, url: string) {
    match step
    case Home => url == "/home"
    case ProductPage => Contains(url, "/the-original-mr-fuzzy") || Contains(url, "/products")
    case Cart => url == "/cart"
    case Shipping => url == "/shipping"
    case Billing => url == "/billing"
    case ThankYou => url == "/thank-you-for-your-order"
  }

  /** The per-session funnel columns. */
  datatype FunnelCounts = FunnelCounts(
    totalPageviews: nat,
    home: int,
    product: int,
    cart: int,
    shipping: int,
    billing: int,
    thankyou: int)

  function StepOf(c: FunnelCounts, step: Step): int {
    match step
    case Home => c.home
    case ProductPage => c.product
    case Cart => c.cart
    case Shipping => c.shipping
    case Billing => c.billing
    case ThankYou => c.thankyou
  }

  /** The funnel columns of a session with no pageview row, after `fillna(0)`. */
  const NoPageviews := FunnelCounts(0, 0, 0, 0, 0, 0, 0)

  /** One row of the aggregated funnel table. */
  datatype FunnelRow = FunnelRow(sessionId: int, counts: FunnelCounts)

  function FunnelSession(f: FunnelRow): int { f.sessionId }
  function FunnelCell(f: FunnelRow): Option<FunnelCounts> { Some(f.counts) }

  function Max(a: int, b: int): int { if a >= b then a else b }
  function Indicator(b: bool): int { if b then 1 else 0 }

  /** `max` of a 0/1 flag over a group; a group with no rows gets 0, the
      value `fillna(0)` gives it after the merge. */
  function MaxFlag<T>(s: seq<T>, p: T -> bool): (m: int)
    ensures m == Indicator(exists x :: x in s && p(x))
  {
    if s == [] then 0
    else
      assert s[0] in s;
      Max(Indicator(p(s[0])), MaxFlag(s[1..], p))
  }

  function VisitOf(k: int): Visit -> bool { (v: Visit) => v.sessionId == k }
  function PageviewOf(k: int): Visit -> bool { (v: Visit) => v.sessionId == k && v.pageviewId.Some? }
  function HitsStep(step: Step): Visit -> bool { (v: Visit) => Hits(step, v.url) }
  function HasPageviewId(v: Visit): bool { v.pageviewId.Some? }
  function VisitSession(v: Visit): Option<int> { Some(v.sessionId) }
  function AsReal(k: int): real { k as real }

  /** The aggregate of one session's pageviews: `count` of the pageview ids
      (missing ids are not counted) and `max` of each step flag. */
  function SessionFunnel(vs: seq<Visit>, k: int): (c: FunnelCounts)
    ensures c.totalPageviews == Count(vs, PageviewOf(k))
  {
    var g := Filter(vs, VisitOf(k));
    FilterFilter(vs, VisitOf(k), HasPageviewId, PageviewOf(k));
    FilterIsCount(g, HasPageviewId);
    FilterIsCount(vs, PageviewOf(k));
    FunnelCounts(Count(g, HasPageviewId), MaxFlag(g, HitsStep(Home)), MaxFlag(g, HitsStep(ProductPage)),
                 MaxFlag(g, HitsStep(Cart)), MaxFlag(g, HitsStep(Shipping)), MaxFlag(g, HitsStep(Billing)),
                 MaxFlag(g, HitsStep(ThankYou)))
  }

  /** A session's step flag is 1 exactly when one of its pageviews hits the
      step, and 0 otherwise; its pageview count is bounded by its rows. */
  lemma SessionFunnelFlags(vs: seq<Visit>, k: int, step: Step)
    ensures StepOf(SessionFunnel(vs, k), step) == 0 || StepOf(SessionFunnel(vs, k), step) == 1
    ensures StepOf(SessionFunnel(vs, k), step) == 1 <==> exists v :: v in vs && v.sessionId == k && Hits(step, v.url)
    ensures SessionFunnel(vs, k).totalPageviews <= |Filter(vs, VisitOf(k))|
  {
    var g := Filter(vs, VisitOf(k));
    assert StepOf(SessionFunnel(vs, k), step) == MaxFlag(g, HitsStep(step));
    FilterIsCount(g, HasPageviewId);
  }

  /** The distinct sessions of the pageviews, in ascending order. */
  function FunnelKeys(vs: seq<Visit>): (ks: seq<int>)
    ensures forall i, j :: 0 <= i < j < |ks| ==> ks[i] < ks[j]
    ensures forall k :: k in ks <==> exists v :: v in vs && v.sessionId == k
  {
    var present := PresentKeys(vs, VisitSession);
    var ks := SortBy(present, AsReal, false);
    AscendingKeysOf(present, ks);
    ks
  }

  /** Sorting distinct session ids makes them strictly ascending. */
  lemma AscendingKeysOf(present: seq<int>, ks: seq<int>)
    requires forall i, j :: 0 <= i < j < |present| ==> present[i] != present[j]
    requires ks == SortBy(present, AsReal, false)
    ensures forall i, j :: 0 <= i < j < |ks| ==> ks[i] < ks[j]
    ensures forall k :: k in ks <==> k in present
  {
    SortByKeepsRows(present, AsReal, false);
    assert KeysDistinct(present, Identity);
    PermutationKeepsKeysDistinct(present, ks, Identity);
    forall i, j | 0 <= i < j < |ks| ensures ks[i] < ks[j] {
      assert AsReal(ks[i]) <= AsReal(ks[j]);
      assert Identity(ks[i]) != Identity(ks[j]);
    }
  }

  function FunnelRowOf(vs: seq<Visit>): int -> FunnelRow {
    (k: int) => FunnelRow(k, SessionFunnel(vs, k))
  }

  /** The rows `clean_pageviews` returns: one row per session, ascending by
      session id, with that session's aggregate. */
  function CleanPageviewRows(pvs: seq<Pageview>): (r: seq<FunnelRow>)
    ensures forall i, j :: 0 <= i < j < |r| ==> r[i].sessionId < r[j].sessionId
    ensures forall x :: x in r ==> x.counts == SessionFunnel(FilterMap(pvs, ToVisit), x.sessionId)
    ensures forall x :: x in r ==> exists p :: p in pvs && p.sessionId == Some(x.sessionId) && p.url.Some?
    ensures forall p :: p in pvs && p.sessionId.Some? && p.url.Some? ==>
              exists x :: x in r && x.sessionId == p.sessionId.value
  {
    var vs := FilterMap(pvs, ToVisit);
    var ks := FunnelKeys(vs);
    var r := Map(ks, FunnelRowOf(vs));
    FunnelRowsFacts(pvs, vs, ks, r);
    r
  }

  lemma FunnelRowsFacts(pvs: seq<Pageview>, vs: seq<Visit>, ks: seq<int>, r: seq<FunnelRow>)
    requires vs == FilterMap(pvs, ToVisit) && ks == FunnelKeys(vs) && r == Map(ks, FunnelRowOf(vs))
    ensures forall i, j :: 0 <= i < j < |r| ==> r[i].sessionId < r[j].sessionId
    ensures forall x :: x in r ==> x.sessionId in ks && x.counts == SessionFunnel(vs, x.sessionId)
    ensures forall x :: x in r ==> exists p :: p in pvs && p.sessionId == Some(x.sessionId) && p.url.Some?
    ensures forall p :: p in pvs && p.sessionId.Some? && p.url.Some? ==>
              exists x :: x in r && x.sessionId == p.sessionId.value
  {
    forall i, j | 0 <= i < j < |r| ensures r[i].sessionId < r[j].sessionId {
      assert r[i].sessionId == ks[i] && r[j].sessionId == ks[j];
    }
    FunnelRowsMembers(vs, ks, r);
    forall x | x in r ensures exists p :: p in pvs && p.sessionId == Some(x.sessionId) && p.url.Some? {
      var v :| v in vs && v.sessionId == x.sessionId;
      var p :| p in pvs && ToVisit(p) == Some(v);
    }
    forall p | p in pvs && p.sessionId.Some? && p.url.Some?
      ensures exists x :: x in r && x.sessionId == p.sessionId.value
    {
      FunnelRowOfPageview(pvs, vs, ks, r, p);
    }
  }

  lemma FunnelRowsMembers(vs: seq<Visit>, ks: seq<int>, r: seq<FunnelRow>)
    requires r == Map(ks, FunnelRowOf(vs))
    ensures forall x :: x in r ==> x.sessionId in ks && x.counts == SessionFunnel(vs, x.sessionId)
  {
    forall x | x in r ensures x.sessionId in ks && x.counts == SessionFunnel(vs, x.sessionId) {
      var i :| 0 <= i < |r| && r[i] == x;
      assert r[i] == FunnelRowOf(vs)(ks[i]);
    }
  }

  lemma FunnelRowOfPageview(pvs: seq<Pageview>, vs: seq<Visit>, ks: seq<int>, r: seq<FunnelRow>, p: Pageview)
    requires vs == FilterMap(pvs, ToVisit) && ks == FunnelKeys(vs) && r == Map(ks, FunnelRowOf(vs))
    requires p in pvs && p.sessionId.Some? && p.url.Some?
    ensures exists x :: x in r && x.sessionId == p.sessionId.value
  {
    var k := p.sessionId.value;
    assert ToVisit(p).value in vs && ToVisit(p).value.sessionId == k;
    assert k in ks;
    var i :| 0 <= i < |ks| && ks[i] == k;
    assert r[i] == FunnelRowOf(vs)(k);
  }

  // ---------------------------------------------------------------------
  // The master table

  /** One row of the master table: the session's columns, then the joined
      order aggregate, the funnel columns (None when no funnel table was
      given) and the refund flag. */
  datatype MasterRow = MasterRow(
    session: ServerSession,
    ordersInSession: nat,
    totalOrderValue: int,
    avgOrderValue: Option<real>,
    firstOrderDate: Option<int>,
    converted: bool,
    conversionFlag: int,
    funnel: Option<FunnelCounts>,
    wasRefunded: int)

  /** The columns `create_master_dataset` adds to the session columns. */
  const OrderAggColumns: set<string> :=
    {"orders_in_session", "total_order_value", "avg_order_value", "first_order_date", "converted", "conversion_flag"}
  const FunnelColumns: set<string> :=
    {"total_pageviews", "step_home", "step_product", "step_cart", "step_shipping", "step_billing", "step_thankyou"}

  function MasterColumns(sessionColumns: set<string>, withFunnel: bool): set<string> {
    sessionColumns + OrderAggColumns + (if withFunnel then FunnelColumns else {}) + {"was_refunded"}
  }

  function OrderOfSession(k: int): ServerOrder -> bool { (o: ServerOrder) => o.sessionId == k }

  /** The `mean` of a group with `n` rows summing to `total`; missing for
      an empty group. */
  function MeanOf(total: int, n: nat): (q: Option<real>)
    ensures q.Some? <==> n > 0
    ensures q.Some? ==> IsRatio(q.value, total, n)
  {
    if n > 0 then Some(Ratio(total, n)) else None
  }

  /** The first non-missing value of a column (`first` skips NaN). */
  function FirstKnown(s: seq<Option<int>>): (r: Option<int>)
    ensures r.Some? ==> exists i :: 0 <= i < |s| && s[i] == r && forall j :: 0 <= j < i ==> s[j].None?
    ensures r.None? <==> forall x :: x in s ==> x.None?
  {
    if s == [] then None
    else if s[0].Some? then s[0]
    else
      var r := FirstKnown(s[1..]);
      assert r.Some? ==> exists i :: 0 <= i < |s| && s[i] == r && forall j :: 0 <= j < i ==> s[j].None? by {
        if r.Some? {
          var i :| 0 <= i < |s[1..]| && s[1..][i] == r && forall j :: 0 <= j < i ==> s[1..][j].None?;
          assert forall j :: 0 <= j < i + 1 ==> s[j].None? by {
            forall j | 0 <= j < i + 1 ensures s[j].None? {
              if j > 0 { assert s[j] == s[1..][j - 1]; }
            }
          }
        }
      }
      r
  }

  /** `df_refunds['order_id'].unique()`. */
  function RefundIds(refunds: seq<ServerRefund>): set<int> {
    set r | r in refunds :: r.orderId
  }

  /** `df_orders['was_refunded'] = df_orders['order_id'].isin(ids)`. */
  function StampRefund(ids: set<int>): ServerOrder -> ServerOrder {
    (o: ServerOrder) => o.(wasRefunded := Some(Indicator(o.orderId in ids)))
  }

  function RefundedOrder(o: ServerOrder): bool { o.wasRefunded == Some(1) }

  /** The master row of a session, stated directly: its orders, whether any
      of them was refunded, and its funnel row if a funnel table is given. */
  function MasterRowOf(orders: seq<ServerOrder>, ids: set<int>, funnel: Option<seq<FunnelRow>>, s: ServerSession): (m: MasterRow)
    ensures m.session == s
    ensures m.ordersInSession == Count(orders, OrderOfSession(s.sessionId))
    ensures m.converted <==> m.ordersInSession > 0
    ensures m.conversionFlag == Indicator(m.converted)
    ensures m.wasRefunded == 1 <==> exists o :: o in orders && o.sessionId == s.sessionId && o.orderId in ids
    ensures m.wasRefunded == 0 || m.wasRefunded == 1
    ensures m.wasRefunded == 1 ==> m.converted
    ensures m.totalOrderValue == Sum(Filter(orders, OrderOfSession(s.sessionId)), OrderValueOf)
    ensures m.avgOrderValue.Some? <==> m.ordersInSession > 0
    ensures m.avgOrderValue.Some? ==> IsRatio(m.avgOrderValue.value, m.totalOrderValue, m.ordersInSession)
    ensures m.firstOrderDate == FirstKnown(Map(Filter(orders, OrderOfSession(s.sessionId)), OrderDateCell))
    ensures m.ordersInSession == 0 ==> m.totalOrderValue == 0 && m.avgOrderValue.None? && m.firstOrderDate.None?
    ensures m.funnel.Some? <==> funnel.Some?
    ensures funnel.Some? ==> m.funnel == Some(FunnelCellOf(funnel.value, s.sessionId))
  {
    var g := Filter(orders, OrderOfSession(s.sessionId));
    var n := |g|;
    FilterIsCount(orders, OrderOfSession(s.sessionId));
    var refunded := exists o :: o in orders && o.sessionId == s.sessionId && o.orderId in ids;
    RefundedHasOrder(orders, ids, s.sessionId);
    MasterRow(
      s, n, Sum(g, OrderValueOf),
      MeanOf(Sum(g, OrderValueOf), n),
      FirstKnown(Map(g, OrderDateCell)),
      n > 0, Indicator(n > 0),
      if funnel.Some? then Some(FunnelCellOf(funnel.value, s.sessionId)) else None,
      Indicator(refunded))
  }

  /** The funnel counts the left merge and `fillna(0)` give session `k`:
      zero counts without a funnel row, and with one row per session that
      session's row. */
  function FunnelCellOf(funnel: seq<FunnelRow>, k: int): (c: FunnelCounts)
    ensures (forall f :: f in funnel ==> f.sessionId != k) ==> c == NoPageviews
    ensures KeysDistinct(funnel, FunnelSession) ==> forall f :: f in funnel && f.sessionId == k ==> c == f.counts
    ensures c == NoPageviews || exists f :: f in funnel && f.sessionId == k && c == f.counts
  {
    FunnelLookup(funnel, k);
    Lookup(funnel, FunnelSession, FunnelCell, k).GetOr(NoPageviews)
  }

  /** With one funnel row per session, a session's lookup finds its own row. */
  lemma FunnelLookup(funnel: seq<FunnelRow>, k: int)
    ensures KeysDistinct(funnel, FunnelSession) ==>
              forall f :: f in funnel && f.sessionId == k ==> Lookup(funnel, FunnelSession, FunnelCell, k) == Some(f.counts)
  {
    if KeysDistinct(funnel, FunnelSession) {
      forall f | f in funnel && f.sessionId == k
        ensures Lookup(funnel, FunnelSession, FunnelCell, k) == Some(f.counts)
      {
        LookupUnique(funnel, FunnelSession, FunnelCell, f);
      }
    }
  }

  /** A session with a refunded order has an order. */
  lemma RefundedHasOrder(orders: seq<ServerOrder>, ids: set<int>, k: int)
    ensures (exists o :: o in orders && o.sessionId == k && o.orderId in ids) ==> |Filter(orders, OrderOfSession(k))| > 0
  {
    if exists o :: o in orders && o.sessionId == k && o.orderId in ids {
      var o :| o in orders && o.sessionId == k && o.orderId in ids;
      assert o in Filter(orders, OrderOfSession(k));
    }
  }

  /** The master rows: one per session, in the sessions' order. */
  function MasterRows(sessions: seq<ServerSession>, orders: seq<ServerOrder>, refunds: seq<ServerRefund>,
                      funnel: Option<seq<FunnelRow>>): (r: seq<MasterRow>)
    ensures |r| == |sessions|
    ensures forall i :: 0 <= i < |r| ==> r[i] == MasterRowOf(orders, RefundIds(refunds), funnel, sessions[i])
  {
    Map(sessions, (s: ServerSession) => MasterRowOf(orders, RefundIds(refunds), funnel, s))
  }

  /** Every funnel flag is 0 or 1. */
  ghost predicate BinaryCounts(c: FunnelCounts) {
    forall step: Step :: StepOf(c, step) == 0 || StepOf(c, step) == 1
  }

  /** The aggregated funnel table has 0/1 step flags. */
  lemma CleanPageviewRowsBinary(pvs: seq<Pageview>)
    ensures forall x :: x in CleanPageviewRows(pvs) ==> BinaryCounts(x.counts)
  {
    forall x, step: Step | x in CleanPageviewRows(pvs)
      ensures StepOf(x.counts, step) == 0 || StepOf(x.counts, step) == 1
    {
      SessionFunnelFlags(FilterMap(pvs, ToVisit), x.sessionId, step);
    }
  }

  /** The flags of a master row agree with each other: the conversion flag
      is the `converted` indicator, the refund flag is 0/1 and implies
      `converted`, and the funnel flags are 0/1. */
  ghost predicate ConsistentMaster(m: MasterRow) {
    && m.conversionFlag == Indicator(m.converted)
    && (m.wasRefunded == 0 || m.wasRefunded == 1)
    && (m.wasRefunded == 1 ==> m.converted)
    && (m.funnel.Some? ==> BinaryCounts(m.funnel.value))
  }

  /** Given a funnel table with 0/1 flags (such as the one `clean_pageviews`
      returns), every master row is consistent. */
  lemma MasterRowsConsistent(sessions: seq<ServerSession>, orders: seq<ServerOrder>, refunds: seq<ServerRefund>,
                             funnel: Option<seq<FunnelRow>>)
    requires funnel.Some? ==> forall x :: x in funnel.value ==> BinaryCounts(x.counts)
    ensures forall m :: m in MasterRows(sessions, orders, refunds, funnel) ==> ConsistentMaster(m)
  {
    var r := MasterRows(sessions, orders, refunds, funnel);
    forall m | m in r ensures ConsistentMaster(m) {
      var i :| 0 <= i < |r| && r[i] == m;
      var s := sessions[i];
      if funnel.Some? {
        var c := FunnelCellOf(funnel.value, s.sessionId);
        if c == NoPageviews {
          assert forall step: Step :: StepOf(NoPageviews, step) == 0;
        } else {
          var x :| x in funnel.value && x.sessionId == s.sessionId && c == x.counts;
          assert BinaryCounts(x.counts);
        }
      }
    }
  }

  // The stages of `create_master_dataset`, in the order the source assigns
  // the columns.

  /** The merge with the per-session order aggregate. */
  function JoinOrders(orders: seq<ServerOrder>): ServerSession -> MasterRow {
    (s: ServerSession) =>
      var g := Filter(orders, OrderOfSession(s.sessionId));
      var n := |g|;
      MasterRow(s, n, Sum(g, OrderValueOf),
                MeanOf(Sum(g, OrderValueOf), n),
                FirstKnown(Map(g, OrderDateCell)), n > 0, Indicator(n > 0), None, 0)
  }

  /** The merge with the funnel table, filling missing sessions with 0. */
  function JoinFunnel(funnel: seq<FunnelRow>): MasterRow -> MasterRow {
    (m: MasterRow) => m.(funnel := Some(FunnelCellOf(funnel, m.session.sessionId)))
  }

  /** The merge with the per-session `max` of the stamped orders' flags. */
  function JoinRefunds(stamped: seq<ServerOrder>): MasterRow -> MasterRow {
    (m: MasterRow) => m.(wasRefunded := MaxFlag(Filter(stamped, OrderOfSession(m.session.sessionId)), RefundedOrder))
  }

  /** Stamping keeps each order's session, and a stamped order is refunded
      exactly when its id is among the refunded ids. */
  lemma StampedRefundFlag(orders: seq<ServerOrder>, ids: set<int>, k: int)
    ensures MaxFlag(Filter(Map(orders, StampRefund(ids)), OrderOfSession(k)), RefundedOrder)
            == Indicator(exists o :: o in orders && o.sessionId == k && o.orderId in ids)
  {
    StampedRefundedIf(orders, ids, k);
    StampedRefundedOnlyIf(orders, ids, k);
  }

  lemma StampedRefundedIf(orders: seq<ServerOrder>, ids: set<int>, k: int)
    ensures (exists o :: o in orders && o.sessionId == k && o.orderId in ids) ==>
              exists y :: y in Filter(Map(orders, StampRefund(ids)), OrderOfSession(k)) && RefundedOrder(y)
  {
    if exists o :: o in orders && o.sessionId == k && o.orderId in ids {
      var stamped := Map(orders, StampRefund(ids));
      var o :| o in orders && o.sessionId == k && o.orderId in ids;
      var i :| 0 <= i < |orders| && orders[i] == o;
      assert stamped[i] in Filter(stamped, OrderOfSession(k)) && RefundedOrder(stamped[i]);
    }
  }

  lemma StampedRefundedOnlyIf(orders: seq<ServerOrder>, ids: set<int>, k: int)
    ensures (exists y :: y in Filter(Map(orders, StampRefund(ids)), OrderOfSession(k)) && RefundedOrder(y)) ==>
              exists o :: o in orders && o.sessionId == k && o.orderId in ids
  {
    var stamped := Map(orders, StampRefund(ids));
    var g := Filter(stamped, OrderOfSession(k));
    if exists y :: y in g && RefundedOrder(y) {
      var y :| y in g && RefundedOrder(y);
      var i :| 0 <= i < |stamped| && stamped[i] == y;
      assert orders[i] in orders && orders[i].sessionId == k && orders[i].orderId in ids;
    }
  }

  /** The three merges, one after the other, build the master rows. */
  lemma StagedMaster(sessions: seq<ServerSession>, orders: seq<ServerOrder>, refunds: seq<ServerRefund>,
                     funnel: Option<seq<FunnelRow>>, staged: seq<MasterRow>, rows: seq<MasterRow>)
    requires funnel.None? ==> staged == Map(sessions, JoinOrders(orders))
    requires funnel.Some? ==> staged == Map(Map(sessions, JoinOrders(orders)), JoinFunnel(funnel.value))
    requires rows == Map(staged, JoinRefunds(Map(orders, StampRefund(RefundIds(refunds)))))
    ensures rows == MasterRows(sessions, orders, refunds, funnel)
  {
    var ids := RefundIds(refunds);
    var m := MasterRows(sessions, orders, refunds, funnel);
    forall i | 0 <= i < |rows| ensures rows[i] == m[i] {
      StagedRow(orders, ids, funnel, sessions[i]);
    }
  }

  /** One session through the three merges. */
  lemma StagedRow(orders: seq<ServerOrder>, ids: set<int>, funnel: Option<seq<FunnelRow>>, s: ServerSession)
    ensures var m0 := JoinOrders(orders)(s);
            var m1 := if funnel.Some? then JoinFunnel(funnel.value)(m0) else m0;
            JoinRefunds(Map(orders, StampRefund(ids)))(m1) == MasterRowOf(orders, ids, funnel, s)
  {
    StampedRefundFlag(orders, ids, s.sessionId);
  }

  // ---------------------------------------------------------------------
  // The cleaner

  /** `BearCartDataCleaner`: its one field is the cleaning report. */
  class DataCleaner {
    var cleaningReport: map<string, int>

    constructor ()
      ensures cleaningReport == map[]
    {
      cleaningReport := map[];
    }

    /** `clean_sessions`; the de-duplication and the date conversion need
        the session id and date columns. */
    method CleanSessions(df: Frame<ServerSession>) returns (r: Frame<ServerSession>)
      requires "session_id" in Renamed(df.columns, SessionRenames)
      requires "session_date" in Renamed(df.columns, SessionRenames)
      modifies this
      ensures fresh(r)
      ensures r.columns == Renamed(df.columns, SessionRenames)
      ensures r.rows == CleanSessionRows(r.columns, df.rows)
      ensures cleaningReport == old(cleaningReport)[BotsKey := BotsRemoved(r.columns, df.rows)]
                                                   [DuplicatesKey := Duplicated(df.rows, ServerSessionId)]
    {
      var columns := Renamed(df.columns, SessionRenames);
      var duplicates := Duplicated(df.rows, ServerSessionId);
      var rows := DropDuplicates(df.rows, ServerSessionId);
      if "traffic_source" in columns {
        rows := Map(rows, FillDirect);
      }
      if "session_duration" in columns {
        var bots := Count(rows, IsBot);
        rows := Filter(rows, NotBot);
        cleaningReport := cleaningReport[BotsKey := bots];
      } else {
        cleaningReport := cleaningReport[BotsKey := 0];
      }
      cleaningReport := cleaningReport[DuplicatesKey := duplicates];
      r := new Frame(columns, rows);
    }

    /** `clean_orders`; `sessions` is the cleaned sessions frame. The id,
        date and value columns are read unconditionally, the session id
        columns only for the merge with the session dates. */
    method CleanOrders(df: Frame<RawServerOrder>, sessions: Frame<ServerSession>) returns (r: Frame<ServerOrder>)
      requires "order_id" in Renamed(df.columns, OrderRenames)
      requires "order_date" in Renamed(df.columns, OrderRenames)
      requires "order_value" in Renamed(df.columns, OrderRenames)
      requires "session_date" in sessions.columns ==>
                 "session_id" in Renamed(df.columns, OrderRenames) && "session_id" in sessions.columns
      modifies this
      ensures fresh(r)
      ensures r.columns == Renamed(df.columns, OrderRenames) + {"order_value_log", "high_value_order"}
      ensures r.rows == CleanOrderRows(sessions.columns, sessions.rows, df.rows)
      ensures cleaningReport == old(cleaningReport)
                                  [OrdersDateKey := InvalidDates(sessions.columns, sessions.rows, df.rows)]
                                  [OrdersNegativeKey := NegativeOrders(sessions.columns, sessions.rows, df.rows)]
    {
      var columns := Renamed(df.columns, OrderRenames);
      var rows := Filter(df.rows, HasOrderId);
      var invalidDates := 0;
      if "session_date" in sessions.columns {
        invalidDates := Count(rows, OrderBeforeSession(sessions.rows));
        rows := Filter(rows, OrderNotBeforeSession(sessions.rows));
      }
      var negativeOrders := Count(rows, NegativeValue);
      var cleaned := FilterMap(rows, ToServerOrder);
      cleaningReport := cleaningReport[OrdersDateKey := invalidDates][OrdersNegativeKey := negativeOrders];
      r := new Frame(columns + {"order_value_log", "high_value_order"}, cleaned);
    }

    /** `clean_refunds`; `orders` is the cleaned orders frame. The refund
        date is read unconditionally, the order ids only for the merge. */
    method CleanRefunds(df: Frame<ServerRefund>, orders: Frame<ServerOrder>) returns (r: Frame<ServerRefund>)
      requires "refund_date" in Renamed(df.columns, RefundRenames)
      requires "order_date" in orders.columns ==>
                 "order_id" in Renamed(df.columns, RefundRenames) && "order_id" in orders.columns
      modifies this
      ensures fresh(r)
      ensures r.columns == Renamed(df.columns, RefundRenames)
      ensures r.rows == CleanRefundRows(orders.columns, orders.rows, df.rows)
      ensures cleaningReport == old(cleaningReport)[RefundsKey := InvalidRefunds(orders.columns, orders.rows, df.rows)]
    {
      var rows := df.rows;
      var invalidRefunds := 0;
      if "order_date" in orders.columns {
        invalidRefunds := Count(rows, RefundBeforeOrder(orders.rows));
        rows := Filter(rows, RefundNotBeforeOrder(orders.rows));
      }
      cleaningReport := cleaningReport[RefundsKey := invalidRefunds];
      r := new Frame(Renamed(df.columns, RefundRenames), rows);
    }

    /** `clean_products`. */
    method CleanProducts(df: Frame<RawServerProduct>) returns (r: Frame<ServerProduct>)
      requires "product_id" in Renamed(df.columns, ProductRenames)
      ensures fresh(r)
      ensures r.columns == Renamed(df.columns, ProductRenames)
      ensures r.rows == CleanProductRows(df.rows)
    {
      r := new Frame(Renamed(df.columns, ProductRenames), FilterMap(df.rows, ToProduct));
    }

    /** `clean_order_items`: the price and cost columns of `items` itself are
        filled and its margin column set, then the merged and filtered rows
        are returned as a new frame. */
    method CleanOrderItems(items: Frame<ServerItem>, orders: Frame<ServerOrder>, products: Frame<ServerProduct>)
      returns (r: Frame<EnrichedItem>)
      requires {"price_usd", "cogs_usd", "product_id", "order_id"} <= items.columns
      requires {"product_id", "product_name"} <= products.columns
      requires "order_id" in orders.columns
      modifies items
      ensures items.columns == old(items.columns) + {"margin_usd"}
      ensures items.rows == Map(old(items.rows), FillItemCosts)
      ensures fresh(r)
      ensures r.columns == items.columns + {"product_name"}
      ensures r.rows == CleanItemRows(old(items.rows), orders.rows, products.rows)
    {
      var raw := items.rows;
      items.rows := Map(items.rows, FillItemCosts);
      items.columns := items.columns + {"margin_usd"};
      var merged := Map(items.rows, Enrich(products.rows));
      var kept := Filter(merged, ItemOfOrders(OrderIds(orders.rows)));
      ItemRowsAfterFill(raw, orders.rows, products.rows);
      r := new Frame(items.columns + {"product_name"}, kept);
    }

    /** `clean_pageviews`. */
    method CleanPageviews(df: Frame<Pageview>) returns (r: Frame<FunnelRow>)
      requires {"website_session_id", "pageview_url", "website_pageview_id"} <= df.columns
      ensures fresh(r)
      ensures r.columns == {"session_id"} + FunnelColumns
      ensures r.rows == CleanPageviewRows(df.rows)
    {
      r := new Frame({"session_id"} + FunnelColumns, CleanPageviewRows(df.rows));
    }

    /** `create_master_dataset`: the orders frame it is given gains the
        `was_refunded` column. */
    method CreateMasterDataset(sessions: Frame<ServerSession>, orders: Frame<ServerOrder>,
                               refunds: Frame<ServerRefund>, pageviews: Option<Frame<FunnelRow>>)
      returns (master: Frame<MasterRow>)
      requires {"session_id", "order_id", "order_value", "order_date"} <= orders.columns
      requires "session_id" in sessions.columns && "order_id" in refunds.columns
      requires pageviews.Some? ==> "session_id" in pageviews.value.columns
      modifies orders
      ensures orders.columns == old(orders.columns) + {"was_refunded"}
      ensures orders.rows == Map(old(orders.rows), StampRefund(RefundIds(refunds.rows)))
      ensures fresh(master)
      ensures master.columns == MasterColumns(sessions.columns, pageviews.Some?)
      ensures master.rows == MasterRows(sessions.rows, old(orders.rows), refunds.rows,
                                        if pageviews.Some? then Some(pageviews.value.rows) else None)
    {
      var raw := orders.rows;
      var ids := RefundIds(refunds.rows);
      var funnel := if pageviews.Some? then Some(pageviews.value.rows) else None;
      var staged := Map(sessions.rows, JoinOrders(orders.rows));
      if pageviews.Some? {
        staged := Map(staged, JoinFunnel(pageviews.value.rows));
      }
      orders.rows := Map(orders.rows, StampRefund(ids));
      orders.columns := orders.columns + {"was_refunded"};
      var rows := Map(staged, JoinRefunds(orders.rows));
      StagedMaster(sessions.rows, raw, refunds.rows, funnel, staged, rows);
      master := new Frame(MasterColumns(sessions.columns, pageviews.Some?), rows);
    }
  }
}
