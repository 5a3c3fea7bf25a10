/** The dashboard backend's cleaning and normalisation of the raw Maven
    Fuzzy Factory tables (`BearCart/backend/data_cleaning.py`): keep-first
    de-duplication, dropping rows whose timestamp or revenue is missing,
    clipping and defaulting numeric columns, deriving the marketing channel,
    and building the order-level refunds table. Numeric cells have already
    been through `to_numeric(errors="coerce")`: a cell that did not parse
    is None. */
module BackendCleaning {
  import opened Seqs
  import opened Sorting
  import opened Grouping
  import opened Text
  import opened Tables

  // ---------------------------------------------------------------------
  // Marketing channel

  /** `str(x or "")` for a text cell. */
  function TextOrEmpty(c: Option<string>): string {
    c.GetOr("")
  }

  /** `_derive_channel`: a priority-ordered rule on the lower-cased
      `utm_source` and on `http_referer`. */
  function DeriveChannel(utmSource: Option<string>, httpReferer: Option<string>): (r: string)
    ensures |r| > 0
  {
    var src := Lower(TextOrEmpty(utmSource));
    var referer := TextOrEmpty(httpReferer);
    if src == "gsearch" || src == "bing" then "Paid Search"
    else if src == "email" then "Email"
    else if src == "facebook" || src == "twitter" then "Social"
    else if src == "" then
      if referer != "" && !Contains(referer, "mavenfuzzyfactory") then "Referral" else "Direct"
    else
      LowerOfTitle(src);
      if Title(src) != "" then Title(src) else "Other"
  }

  /** The rules apply in priority order on the lower-cased source: the
      recognised sources give their fixed label, an empty source gives
      "Referral" or "Direct", and any other source gives a label that
      lower-cases back to that source (so distinct unrecognised sources
      get distinct channels, and the `or "Other"` fallback is never
      taken). */
  lemma DeriveChannelLabels(utmSource: Option<string>, httpReferer: Option<string>)
    ensures var r := DeriveChannel(utmSource, httpReferer);
            var src := Lower(TextOrEmpty(utmSource));
            && ((src == "gsearch" || src == "bing") ==> r == "Paid Search")
            && (src == "email" ==> r == "Email")
            && ((src == "facebook" || src == "twitter") ==> r == "Social")
            && (src == "" ==> r == "Referral" || r == "Direct")
            && (src !in {"", "gsearch", "bing", "email", "facebook", "twitter"} ==>
                  r == Title(src) && Lower(r) == src && |r| == |src|)
  {
    var src := Lower(TextOrEmpty(utmSource));
    LowerIdempotent(TextOrEmpty(utmSource));
    LowerOfTitle(src);
  }

  lemma {:induction false} LowerIdempotent(s: string)
    ensures Lower(Lower(s)) == Lower(s)
  {
    if s != [] {
      LowerIdempotent(s[1..]);
      assert Lower(s)[1..] == Lower(s[1..]);
    }
  }

  /** With no `utm_source`, the session is a referral exactly when it has
      an external referer. */
  lemma DeriveChannelReferral(httpReferer: Option<string>)
    ensures DeriveChannel(None, httpReferer) == "Referral" <==>
              TextOrEmpty(httpReferer) != "" && !Contains(TextOrEmpty(httpReferer), "mavenfuzzyfactory")
    ensures DeriveChannel(None, httpReferer) in {"Referral", "Direct"}
  {
  }

  /** The rule does not depend on the case of `utm_source`. */
  lemma DeriveChannelCaseInsensitive(source: string, httpReferer: Option<string>)
    ensures DeriveChannel(Some(Lower(source)), httpReferer) == DeriveChannel(Some(source), httpReferer)
  {
    LowerIdempotent(source);
  }

  // ---------------------------------------------------------------------
  // website_sessions

  datatype RawWebsiteSession = RawWebsiteSession(
    websiteSessionId: int,
    createdAt: Option<int>,
    userId: Option<int>,
    isRepeatSession: int,
    utmSource: Option<string>,
    deviceType: Option<string>,
    httpReferer: Option<string>)

  datatype WebsiteSession = WebsiteSession(
    websiteSessionId: int,
    createdAt: int,
    userId: int,
    isRepeatSession: int,
    deviceType: string,
    channel: string)

  function RawSessionId(s: RawWebsiteSession): int { s.websiteSessionId }
  function WebsiteSessionId(s: WebsiteSession): int { s.websiteSessionId }

  /** The row-wise part of `clean_website_sessions`: drop a row whose
      `created_at` or `user_id` is missing, title-case the device (missing
      becomes "unknown") and derive the channel. */
  function CleanSessionRow(s: RawWebsiteSession): (r: Option<WebsiteSession>)
    ensures r.Some? <==> s.createdAt.Some? && s.userId.Some?
    ensures r.Some? ==> r.value.websiteSessionId == s.websiteSessionId
  {
    if s.createdAt.None? || s.userId.None? then None
    else Some(WebsiteSession(
      s.websiteSessionId, s.createdAt.value, s.userId.value, s.isRepeatSession,
      Title(s.deviceType.GetOr("unknown")), DeriveChannel(s.utmSource, s.httpReferer)))
  }

  /** `clean_website_sessions`. */
  function CleanWebsiteSessions(df: seq<RawWebsiteSession>): (r: seq<WebsiteSession>)
    ensures |r| <= |df|
    ensures KeysDistinct(r, WebsiteSessionId)
    ensures forall w :: w in r ==>
              exists x :: x in df && x == df[FirstIndex(df, RawSessionId, x.websiteSessionId)]
                          && CleanSessionRow(x) == Some(w)
  {
    var dedup := DropDuplicates(df, RawSessionId);
    FilterMapKeepsDistinct(dedup, CleanSessionRow, RawSessionId, WebsiteSessionId);
    DropDuplicatesKeepsFirst(df, RawSessionId);
    SubsequenceMembers(dedup, df);
    DedupLength(df, RawSessionId);
    FilterMap(dedup, CleanSessionRow)
  }

  /** A session whose id is met for the first time and has a timestamp and
      a user survives cleaning. */
  lemma CleanWebsiteSessionsKeeps(df: seq<RawWebsiteSession>, i: nat)
    requires i < |df|
    requires forall j :: 0 <= j < i ==> df[j].websiteSessionId != df[i].websiteSessionId
    requires df[i].createdAt.Some? && df[i].userId.Some?
    ensures CleanSessionRow(df[i]).value in CleanWebsiteSessions(df)
  {
    FirstRowSurvives(df, RawSessionId, i);
  }

  // ---------------------------------------------------------------------
  // orders

  datatype RawOrder = RawOrder(
    orderId: int,
    websiteSessionId: int,
    userId: Option<int>,
    createdAt: Option<int>,
    itemsPurchased: Option<int>,
    priceUsd: Option<int>,
    cogsUsd: Option<int>)

  datatype CleanOrder = CleanOrder(
    orderId: int,
    websiteSessionId: int,
    userId: Option<int>,
    createdAt: int,
    itemsPurchased: int,
    priceUsd: int,
    cogsUsd: Option<int>)

  function RawOrderId(o: RawOrder): int { o.orderId }
  function CleanOrderId(o: CleanOrder): int { o.orderId }

  /** `clip(lower=lo)` on one present cell. */
  function ClipLower(x: int, lo: int): (r: int)
    ensures r >= lo && (x >= lo ==> r == x)
  {
    if x < lo then lo else x
  }

  /** `clip(lower=lo)` on one cell: a missing cell stays missing. */
  function ClipCell(c: Option<int>, lo: int): (r: Option<int>)
    ensures r.Some? <==> c.Some?
    ensures r.Some? ==> r.value >= lo
  {
    match c
    case None => None
    case Some(x) => Some(ClipLower(x, lo))
  }

  /** The row-wise part of `clean_orders`. */
  function CleanOrderRow(o: RawOrder): (r: Option<CleanOrder>)
    ensures r.Some? <==> o.createdAt.Some? && o.priceUsd.Some?
    ensures r.Some? ==> r.value.orderId == o.orderId
  {
    if o.createdAt.None? || o.priceUsd.None? then None
    else Some(CleanOrder(
      o.orderId, o.websiteSessionId, o.userId, o.createdAt.value,
      ClipLower(o.itemsPurchased.GetOr(1), 1),
      ClipLower(o.priceUsd.value, 0),
      ClipCell(o.cogsUsd, 0)))
  }

  /** `clean_orders`. */
  function CleanOrders(df: seq<RawOrder>): (r: seq<CleanOrder>)
    ensures |r| <= |df|
    ensures KeysDistinct(r, CleanOrderId)
    ensures forall o :: o in r ==>
              o.priceUsd >= 0 && o.itemsPurchased >= 1
              && (o.cogsUsd.Some? ==> o.cogsUsd.value >= 0)
    ensures forall o :: o in r ==>
              exists x :: x in df && x == df[FirstIndex(df, RawOrderId, x.orderId)]
                          && CleanOrderRow(x) == Some(o)
  {
    var dedup := DropDuplicates(df, RawOrderId);
    FilterMapKeepsDistinct(dedup, CleanOrderRow, RawOrderId, CleanOrderId);
    DropDuplicatesKeepsFirst(df, RawOrderId);
    SubsequenceMembers(dedup, df);
    DedupLength(df, RawOrderId);
    FilterMap(dedup, CleanOrderRow)
  }

  /** An order whose id is met for the first time and has a date and a
      price survives cleaning. */
  lemma CleanOrdersKeeps(df: seq<RawOrder>, i: nat)
    requires i < |df|
    requires forall j :: 0 <= j < i ==> df[j].orderId != df[i].orderId
    requires df[i].createdAt.Some? && df[i].priceUsd.Some?
    ensures CleanOrderRow(df[i]).value in CleanOrders(df)
  {
    FirstRowSurvives(df, RawOrderId, i);
  }

  /** A missing `items_purchased` becomes 1; a present price is clipped
      at 0 and otherwise kept. */
  lemma CleanOrderRowDefaults(o: RawOrder)
    requires o.createdAt.Some? && o.priceUsd.Some?
    ensures o.itemsPurchased.None? ==> CleanOrderRow(o).value.itemsPurchased == 1
    ensures o.priceUsd.value >= 0 ==> CleanOrderRow(o).value.priceUsd == o.priceUsd.value
    ensures o.priceUsd.value < 0 ==> CleanOrderRow(o).value.priceUsd == 0
    ensures o.cogsUsd.None? ==> CleanOrderRow(o).value.cogsUsd.None?
  {
  }

  // ---------------------------------------------------------------------
  // products

  datatype Product = Product(productId: int, createdAt: Option<int>, productName: string)

  function ProductIdOf(p: Product): int { p.productId }

  /** `clean_products`: keep the first row of each `product_id`. */
  function CleanProducts(df: seq<Product>): (r: seq<Product>)
    ensures IsSubsequence(r, df)
    ensures KeysDistinct(r, ProductIdOf)
    ensures Image(r, ProductIdOf) == Image(df, ProductIdOf)
  {
    DropDuplicates(df, ProductIdOf)
  }

  // ---------------------------------------------------------------------
  // order_items

  datatype OrderItem = OrderItem(
    orderItemId: int,
    orderId: int,
    productId: int,
    createdAt: Option<int>,
    priceUsd: Option<int>,
    cogsUsd: Option<int>)

  function OrderItemIdOf(x: OrderItem): int { x.orderItemId }

  /** The numeric columns `clean_order_items` loops over. */
  datatype ItemColumn = PriceUsd | CogsUsd

  /** `fillna(0).clip(lower=0)` on one cell. */
  function FillClip(c: Option<int>): (r: Option<int>)
    ensures r.Some? && r.value >= 0
    ensures c.None? ==> r == Some(0)
    ensures c.Some? && c.value >= 0 ==> r == c
  {
    Some(ClipLower(c.GetOr(0), 0))
  }

  /** `df[col] = df[col].fillna(0).clip(lower=0)` on one row. */
  function FillClipColumn(col: ItemColumn): OrderItem -> OrderItem {
    (x: OrderItem) =>
      match col
      case PriceUsd => x.(priceUsd := FillClip(x.priceUsd))
      case CogsUsd => x.(cogsUsd := FillClip(x.cogsUsd))
  }

  /** Both numeric columns of a row after cleaning. */
  function CleanItemRow(x: OrderItem): OrderItem {
    x.(priceUsd := FillClip(x.priceUsd), cogsUsd := FillClip(x.cogsUsd))
  }

  /** A row after the loop has processed the columns `cols`. */
  function AfterColumns(x: OrderItem, cols: seq<ItemColumn>): OrderItem
  {
    if cols == [] then x else FillClipColumn(cols[|cols| - 1])(AfterColumns(x, cols[..|cols| - 1]))
  }

  /** `clean_order_items`: de-duplicate by `order_item_id`, then clean
      `price_usd` and `cogs_usd` one column at a time. */
  method CleanOrderItems(df: seq<OrderItem>) returns (r: seq<OrderItem>)
    ensures r == Map(DropDuplicates(df, OrderItemIdOf), CleanItemRow)
    ensures KeysDistinct(r, OrderItemIdOf)
    ensures forall x :: x in r ==>
              x.priceUsd.Some? && x.priceUsd.value >= 0 && x.cogsUsd.Some? && x.cogsUsd.value >= 0
  {
    var dedup := DropDuplicates(df, OrderItemIdOf);
    r := dedup;
    var cols := [PriceUsd, CogsUsd];
    for k := 0 to |cols|
      invariant |r| == |dedup|
      invariant forall i :: 0 <= i < |r| ==> r[i] == AfterColumns(dedup[i], cols[..k])
    {
      assert cols[..k + 1][..k] == cols[..k];
      r := Map(r, FillClipColumn(cols[k]));
    }
    assert cols[..|cols|] == cols;
    forall i | 0 <= i < |r| ensures r[i] == CleanItemRow(dedup[i]) {
      assert cols[..1] == [PriceUsd];
    }
    forall i, j | 0 <= i < j < |r| ensures r[i].orderItemId != r[j].orderItemId {
      assert r[i].orderItemId == dedup[i].orderItemId;
      assert r[j].orderItemId == dedup[j].orderItemId;
    }
  }

  /** A missing price or cost of an item becomes 0. */
  lemma CleanItemRowDefaults(x: OrderItem)
    ensures x.priceUsd.None? ==> CleanItemRow(x).priceUsd == Some(0)
    ensures x.cogsUsd.None? ==> CleanItemRow(x).cogsUsd == Some(0)
    ensures CleanItemRow(x).orderItemId == x.orderItemId && CleanItemRow(x).orderId == x.orderId
  {
  }

  // ---------------------------------------------------------------------
  // order_item_refunds

  datatype RawItemRefund = RawItemRefund(
    orderItemRefundId: int,
    orderItemId: int,
    orderId: int,
    createdAt: Option<int>,
    refundAmountUsd: Option<int>)

  datatype ItemRefund = ItemRefund(
    orderItemRefundId: int,
    orderItemId: int,
    orderId: int,
    createdAt: int,
    refundAmountUsd: int)

  function RawItemRefundId(r: RawItemRefund): int { r.orderItemRefundId }
  function ItemRefundId(r: ItemRefund): int { r.orderItemRefundId }

  function CleanItemRefundRow(x: RawItemRefund): (r: Option<ItemRefund>)
    ensures r.Some? <==> x.createdAt.Some? && x.refundAmountUsd.Some?
    ensures r.Some? ==> r.value.orderItemRefundId == x.orderItemRefundId
  {
    if x.createdAt.None? || x.refundAmountUsd.None? then None
    else Some(ItemRefund(x.orderItemRefundId, x.orderItemId, x.orderId, x.createdAt.value,
                         ClipLower(x.refundAmountUsd.value, 0)))
  }

  /** `clean_order_item_refunds`. */
  function CleanOrderItemRefunds(df: seq<RawItemRefund>): (r: seq<ItemRefund>)
    ensures |r| <= |df|
    ensures KeysDistinct(r, ItemRefundId)
    ensures forall x :: x in r ==> x.refundAmountUsd >= 0
    ensures forall x :: x in r ==>
              exists y :: y in df && y == df[FirstIndex(df, RawItemRefundId, y.orderItemRefundId)]
                          && CleanItemRefundRow(y) == Some(x)
  {
    var dedup := DropDuplicates(df, RawItemRefundId);
    FilterMapKeepsDistinct(dedup, CleanItemRefundRow, RawItemRefundId, ItemRefundId);
    DropDuplicatesKeepsFirst(df, RawItemRefundId);
    SubsequenceMembers(dedup, df);
    DedupLength(df, RawItemRefundId);
    FilterMap(dedup, CleanItemRefundRow)
  }

  /** An item refund whose id is met for the first time and has a date and
      an amount survives cleaning. */
  lemma CleanOrderItemRefundsKeeps(df: seq<RawItemRefund>, i: nat)
    requires i < |df|
    requires forall j :: 0 <= j < i ==> df[j].orderItemRefundId != df[i].orderItemRefundId
    requires df[i].createdAt.Some? && df[i].refundAmountUsd.Some?
    ensures CleanItemRefundRow(df[i]).value in CleanOrderItemRefunds(df)
  {
    FirstRowSurvives(df, RawItemRefundId, i);
  }

  // ---------------------------------------------------------------------
  // Normalized tables

  function ToSession(w: WebsiteSession): Session {
    Session(w.websiteSessionId, w.userId, w.createdAt, Some(w.channel), Some(w.deviceType), w.isRepeatSession)
  }

  /** `build_normalized_sessions`: a renaming projection, so one session
      per cleaned session, with a channel and a device always present. */
  function BuildNormalizedSessions(ws: seq<WebsiteSession>): (r: seq<Session>)
    ensures |r| == |ws|
    ensures forall i :: 0 <= i < |r| ==>
              r[i].sessionId == ws[i].websiteSessionId && r[i].timestamp == ws[i].createdAt
              && r[i].channel == Some(ws[i].channel) && r[i].device == Some(ws[i].deviceType)
              && r[i].userId == ws[i].userId && r[i].isRepeatSession == ws[i].isRepeatSession
  {
    Map(ws, ToSession)
  }

  function ToOrder(o: CleanOrder): (r: Option<Order>)
    ensures r.Some? <==> o.userId.Some?
  {
    match o.userId
    case None => None
    case Some(u) => Some(Order(o.orderId, o.websiteSessionId, u, o.createdAt, o.priceUsd, o.itemsPurchased))
  }

  function NormOrderId(o: Order): int { o.orderId }

  /** `build_normalized_orders`: drops orders without a `user_id` and
      renames. */
  function BuildNormalizedOrders(os: seq<CleanOrder>): (r: seq<Order>)
    requires KeysDistinct(os, CleanOrderId)
    ensures |r| <= |os|
    ensures KeysDistinct(r, NormOrderId)
    ensures forall o :: o in r ==>
              exists c :: c in os && c.userId == Some(o.userId) && c.orderId == o.orderId
                          && o.totalAmount == c.priceUsd && o.itemsCount == c.itemsPurchased
                          && o.orderDate == c.createdAt && o.sessionId == c.websiteSessionId
    ensures forall c :: c in os && c.userId.Some? ==> ToOrder(c).value in r
  {
    FilterMapKeepsDistinct(os, ToOrder, CleanOrderId, NormOrderId);
    FilterMap(os, ToOrder)
  }

  // ---------------------------------------------------------------------
  // Order-level refunds

  /** One row of the refunds aggregated by order, joined to the order's
      price. */
  datatype RefundAgg = RefundAgg(orderId: int, refundAmount: int, refundDate: int, orderAmount: Option<int>)

  function ItemRefundOrder(r: ItemRefund): Option<int> { Some(r.orderId) }
  function ItemRefundAmount(r: ItemRefund): int { r.refundAmountUsd }

  /** `min` of `created_at` over a non-empty group. */
  function EarliestDate(rs: seq<ItemRefund>): (d: int)
    requires rs != []
    ensures forall x :: x in rs ==> d <= x.createdAt
    ensures exists x :: x in rs && d == x.createdAt
  {
    if |rs| == 1 then rs[0].createdAt
    else
      var rest := EarliestDate(rs[1..]);
      assert forall x :: x in rs ==> x == rs[0] || x in rs[1..];
      if rs[0].createdAt <= rest then rs[0].createdAt else rest
  }

  /** The `price_usd` of the order with this id (left join), None when
      there is no such order. */
  function OrderAmount(os: seq<CleanOrder>, orderId: int): (a: Option<int>)
    ensures a.Some? <==> exists o :: o in os && o.orderId == orderId
    ensures a.Some? ==> exists o :: o in os && o.orderId == orderId && o.priceUsd == a.value
  {
    if os == [] then None
    else if os[0].orderId == orderId then Some(os[0].priceUsd)
    else
      assert forall o :: o in os ==> o == os[0] || o in os[1..];
      OrderAmount(os[1..], orderId)
  }

  /** The items refunded for an order. */
  function ItemsOfOrder(rs: seq<ItemRefund>, orderId: int): seq<ItemRefund> {
    Filter(rs, HasKey(ItemRefundOrder, orderId))
  }

  /** Completes each grouped row with its earliest date and order amount. */
  function RefundAggRows(rs: seq<ItemRefund>, os: seq<CleanOrder>, g: seq<Agg<int>>): (r: seq<RefundAgg>)
    requires forall a :: a in g ==> ItemsOfOrder(rs, a.key) != []
    ensures |r| == |g|
    ensures forall i :: 0 <= i < |g| ==>
              r[i].orderId == g[i].key && r[i].refundAmount == g[i].total
              && r[i].refundDate == EarliestDate(ItemsOfOrder(rs, g[i].key))
              && r[i].orderAmount == OrderAmount(os, g[i].key)
  {
    if g == [] then []
    else
      assert g[0] in g;
      assert forall a :: a in g[1..] ==> a in g;
      var a := g[0];
      [RefundAgg(a.key, a.total, EarliestDate(ItemsOfOrder(rs, a.key)), OrderAmount(os, a.key))]
        + RefundAggRows(rs, os, g[1..])
  }

  /** An aggregated refund row describes order `a.orderId`: the sum of
      its item refunds, the earliest of their dates, and the order's price. */
  ghost predicate DescribesOrder(a: RefundAgg, rs: seq<ItemRefund>, os: seq<CleanOrder>) {
    && a.refundAmount == Sum(ItemsOfOrder(rs, a.orderId), ItemRefundAmount)
    && (exists x :: x in rs && x.orderId == a.orderId && x.createdAt == a.refundDate)
    && (forall x :: x in rs && x.orderId == a.orderId ==> a.refundDate <= x.createdAt)
    && a.orderAmount == OrderAmount(os, a.orderId)
  }

  /** Strictly ascending `order_id`s. */
  ghost predicate AscendingOrders(agg: seq<RefundAgg>) {
    forall i, j :: 0 <= i < j < |agg| ==> agg[i].orderId < agg[j].orderId
  }

  /** `groupby("order_id").agg(sum, min)` (ascending `order_id`) followed by
      the left merge with the orders' prices. */
  function AggregateRefunds(rs: seq<ItemRefund>, os: seq<CleanOrder>): (r: seq<RefundAgg>)
    ensures AscendingOrders(r)
    ensures forall a :: a in r ==> DescribesOrder(a, rs, os)
    ensures forall x :: x in rs ==> exists a :: a in r && a.orderId == x.orderId
  {
    var g := SortedGroupBy(rs, ItemRefundOrder, ItemRefundAmount, IntKey, false);
    GroupedRefundsFacts(rs, g);
    var r := RefundAggRows(rs, os, g);
    RefundAggRowsFacts(rs, os, g);
    r
  }

  /** What the grouped, sorted table says about each order's group. */
  lemma GroupedRefundsFacts(rs: seq<ItemRefund>, g: seq<Agg<int>>)
    requires IsGroupTable(g, rs, ItemRefundOrder, ItemRefundAmount)
    requires SortedBy(g, IntKey, false)
    ensures forall i, j :: 0 <= i < j < |g| ==> g[i].key < g[j].key
    ensures forall a :: a in g ==>
              a.count == |ItemsOfOrder(rs, a.key)| && a.count >= 1
              && a.total == Sum(ItemsOfOrder(rs, a.key), ItemRefundAmount)
    ensures forall x :: x in rs ==> exists a :: a in g && a.key == x.orderId
  {
    forall i, j | 0 <= i < j < |g| ensures g[i].key < g[j].key {
      assert IntKey(g[i]) <= IntKey(g[j]);
      assert AggKey(g[i]) != AggKey(g[j]);
    }
    forall x | x in rs ensures exists a :: a in g && a.key == x.orderId {
      assert ItemRefundOrder(x).Some?;
    }
  }

  lemma {:induction false} RefundAggRowsFacts(rs: seq<ItemRefund>, os: seq<CleanOrder>, g: seq<Agg<int>>)
    requires forall i, j :: 0 <= i < j < |g| ==> g[i].key < g[j].key
    requires forall a :: a in g ==>
              a.count == |ItemsOfOrder(rs, a.key)| && a.count >= 1
              && a.total == Sum(ItemsOfOrder(rs, a.key), ItemRefundAmount)
    ensures var r := RefundAggRows(rs, os, g);
            && AscendingOrders(r)
            && (forall a :: a in r ==> DescribesOrder(a, rs, os))
            && (forall b :: b in g ==> exists a :: a in r && a.orderId == b.key)
  {
    assert forall a :: a in g ==> ItemsOfOrder(rs, a.key) != [];
    var r := RefundAggRows(rs, os, g);
    forall a | a in r ensures DescribesOrder(a, rs, os) {
      var i :| 0 <= i < |r| && r[i] == a;
      RefundAggRowDescribes(rs, os, g, i);
    }
    RefundAggRowsCover(rs, os, g);
  }

  /** Every grouped order keeps its row. */
  lemma RefundAggRowsCover(rs: seq<ItemRefund>, os: seq<CleanOrder>, g: seq<Agg<int>>)
    requires forall a :: a in g ==> ItemsOfOrder(rs, a.key) != []
    ensures forall b :: b in g ==> exists a :: a in RefundAggRows(rs, os, g) && a.orderId == b.key
  {
    var r := RefundAggRows(rs, os, g);
    forall b | b in g ensures exists a :: a in r && a.orderId == b.key {
      var i :| 0 <= i < |g| && g[i] == b;
      assert r[i] in r;
    }
  }

  /** Row `i` of the completed table describes its order. */
  lemma RefundAggRowDescribes(rs: seq<ItemRefund>, os: seq<CleanOrder>, g: seq<Agg<int>>, i: nat)
    requires forall a :: a in g ==>
              a.count == |ItemsOfOrder(rs, a.key)| && a.count >= 1
              && a.total == Sum(ItemsOfOrder(rs, a.key), ItemRefundAmount)
    requires i < |g|
    ensures DescribesOrder(RefundAggRows(rs, os, g)[i], rs, os)
  {
    assert g[i] in g;
    EarliestOfOrder(rs, g[i].key);
  }

  /** The earliest date of an order's item refunds is one of their dates
      and no later than any of them. */
  lemma EarliestOfOrder(rs: seq<ItemRefund>, k: int)
    requires ItemsOfOrder(rs, k) != []
    ensures var d := EarliestDate(ItemsOfOrder(rs, k));
            && (exists x :: x in rs && x.orderId == k && x.createdAt == d)
            && (forall x :: x in rs && x.orderId == k ==> d <= x.createdAt)
  {
    var items := ItemsOfOrder(rs, k);
    var d := EarliestDate(items);
    var x :| x in items && x.createdAt == d;
    assert ItemRefundOrder(x) == Some(x.orderId);
    forall y | y in rs && y.orderId == k ensures d <= y.createdAt {
      assert ItemRefundOrder(y) == Some(k);
      assert y in items;
    }
  }

  /** `refund_amount > order_amount`; false when the order amount is NaN. */
  predicate Exceeds(a: RefundAgg) {
    a.orderAmount.Some? && a.refundAmount > a.orderAmount.value
  }

  /** `refund_amount <= order_amount`; false when the order amount is NaN. */
  predicate WithinOrder(a: RefundAgg) {
    a.orderAmount.Some? && a.refundAmount <= a.orderAmount.value
  }

  function ExceedsMask(a: RefundAgg): bool { Exceeds(a) }
  function WithinOrderMask(a: RefundAgg): bool { WithinOrder(a) }

  function ToRefund(a: RefundAgg): Refund {
    Refund(IntToString(a.orderId), a.orderId, a.refundDate, a.refundAmount, "Refund")
  }

  /** The validation step: only when some aggregated refund exceeds its
      order's amount is the table cut down to the rows whose amount is at
      most the order's; that mask also drops rows with no matching order. */
  function ValidateRefunds(agg: seq<RefundAgg>): (r: seq<RefundAgg>)
    ensures Count(agg, ExceedsMask) > 0 ==> forall a :: a in r <==> a in agg && WithinOrder(a)
    ensures Count(agg, ExceedsMask) == 0 ==> r == agg
  {
    if Count(agg, ExceedsMask) > 0 then Filter(agg, WithinOrderMask) else agg
  }

  /** `build_normalized_refunds`. */
  function BuildNormalizedRefunds(rs: seq<ItemRefund>, os: seq<CleanOrder>): (r: seq<Refund>)
    ensures forall x :: x in r ==> x.reason == "Refund" && x.refundId == IntToString(x.orderId)
    ensures forall x :: x in r ==> exists y :: y in rs && y.orderId == x.orderId
  {
    var agg := AggregateRefunds(rs, os);
    ValidatedMatchItems(agg, rs, os);
    Map(ValidateRefunds(agg), ToRefund)
  }

  function RefundIdOf(r: Refund): string { r.refundId }

  /** Validation only deletes rows. */
  lemma ValidateRefundsSubsequence(agg: seq<RefundAgg>)
    ensures IsSubsequence(ValidateRefunds(agg), agg)
    ensures forall a :: a in ValidateRefunds(agg) ==> a in agg
  {
    FilterIsSubsequence(agg, WithinOrderMask);
    SubsequenceRefl(agg);
    SubsequenceMembers(ValidateRefunds(agg), agg);
  }

  /** A refund row describes its order's item refunds: their summed
      amount and their earliest date. */
  ghost predicate RefundMatchesItems(x: Refund, rs: seq<ItemRefund>) {
    && x.reason == "Refund" && x.refundId == IntToString(x.orderId)
    && x.refundAmount == Sum(ItemsOfOrder(rs, x.orderId), ItemRefundAmount)
    && (forall y :: y in rs && y.orderId == x.orderId ==> x.refundDate <= y.createdAt)
    && (exists y :: y in rs && y.orderId == x.orderId && y.createdAt == x.refundDate)
  }

  /** The kept refunds stay in ascending order, so their ids are distinct. */
  lemma ValidatedAscending(agg: seq<RefundAgg>)
    requires AscendingOrders(agg)
    ensures var r := Map(ValidateRefunds(agg), ToRefund);
            && (forall i, j :: 0 <= i < j < |r| ==> r[i].orderId < r[j].orderId)
            && KeysDistinct(r, RefundIdOf)
  {
    var kept := ValidateRefunds(agg);
    ValidateRefundsSubsequence(agg);
    SortedSubsequence(kept, agg);
    var r := Map(kept, ToRefund);
    forall i, j | 0 <= i < j < |r| ensures r[i].refundId != r[j].refundId {
      if r[i].refundId == r[j].refundId {
        IntToStringInjective(r[i].orderId, r[j].orderId);
      }
    }
  }

  /** Every kept refund describes its order's item refunds. */
  lemma ValidatedMatchItems(agg: seq<RefundAgg>, rs: seq<ItemRefund>, os: seq<CleanOrder>)
    requires forall a :: a in agg ==> DescribesOrder(a, rs, os)
    ensures forall x :: x in Map(ValidateRefunds(agg), ToRefund) ==> RefundMatchesItems(x, rs)
  {
    var kept := ValidateRefunds(agg);
    ValidateRefundsSubsequence(agg);
    var r := Map(kept, ToRefund);
    forall x | x in r ensures RefundMatchesItems(x, rs) {
      var i :| 0 <= i < |r| && r[i] == x;
      assert kept[i] in kept;
      assert DescribesOrder(kept[i], rs, os);
    }
  }

  /** After validation every kept refund is within its order's amount. */
  lemma ValidatedWithinOrder(agg: seq<RefundAgg>, rs: seq<ItemRefund>, os: seq<CleanOrder>)
    requires forall a :: a in agg ==> DescribesOrder(a, rs, os)
    ensures Count(agg, ExceedsMask) > 0 ==>
              forall x :: x in Map(ValidateRefunds(agg), ToRefund) ==>
                OrderAmount(os, x.orderId).Some? && x.refundAmount <= OrderAmount(os, x.orderId).value
  {
    if Count(agg, ExceedsMask) > 0 {
      var kept := ValidateRefunds(agg);
      ValidateRefundsSubsequence(agg);
      var r := Map(kept, ToRefund);
      forall x | x in r
        ensures OrderAmount(os, x.orderId).Some? && x.refundAmount <= OrderAmount(os, x.orderId).value
      {
        var i :| 0 <= i < |r| && r[i] == x;
        assert kept[i] in kept;
        assert DescribesOrder(kept[i], rs, os);
      }
    }
  }

  /** Without an offending refund nothing is dropped. */
  lemma UnvalidatedKeepsAll(agg: seq<RefundAgg>)
    ensures Count(agg, ExceedsMask) == 0 ==> forall a :: a in agg ==> ToRefund(a) in Map(ValidateRefunds(agg), ToRefund)
  {
    if Count(agg, ExceedsMask) == 0 {
      var r := Map(agg, ToRefund);
      forall a | a in agg ensures ToRefund(a) in r {
        var i :| 0 <= i < |agg| && agg[i] == a;
        assert r[i] == ToRefund(a);
      }
    }
  }

  /** The refunds table is in strictly ascending `order_id` order (one
      row per order), and its `refund_id`s, being `str(order_id)`, are
      distinct. */
  lemma BuildNormalizedRefundsDistinct(rs: seq<ItemRefund>, os: seq<CleanOrder>)
    ensures var r := BuildNormalizedRefunds(rs, os);
            && (forall i, j :: 0 <= i < j < |r| ==> r[i].orderId < r[j].orderId)
            && KeysDistinct(r, RefundIdOf)
  {
    var agg := AggregateRefunds(rs, os);
    ValidatedAscending(agg);
    assert BuildNormalizedRefunds(rs, os) == Map(ValidateRefunds(agg), ToRefund);
  }

  /** Every refund row has reason "Refund", `refund_id == str(order_id)`,
      the summed amount and the earliest date of its order's item refunds. */
  lemma BuildNormalizedRefundsRows(rs: seq<ItemRefund>, os: seq<CleanOrder>)
    ensures forall x :: x in BuildNormalizedRefunds(rs, os) ==>
              && x.reason == "Refund" && x.refundId == IntToString(x.orderId)
              && x.refundAmount == Sum(ItemsOfOrder(rs, x.orderId), ItemRefundAmount)
              && (forall y :: y in rs && y.orderId == x.orderId ==> x.refundDate <= y.createdAt)
              && (exists y :: y in rs && y.orderId == x.orderId && y.createdAt == x.refundDate)
  {
    var r := BuildNormalizedRefunds(rs, os);
    ValidatedMatchItems(AggregateRefunds(rs, os), rs, os);
    assert r == Map(ValidateRefunds(AggregateRefunds(rs, os)), ToRefund);
    forall x | x in r
      ensures x.reason == "Refund" && x.refundId == IntToString(x.orderId)
      ensures x.refundAmount == Sum(ItemsOfOrder(rs, x.orderId), ItemRefundAmount)
      ensures forall y :: y in rs && y.orderId == x.orderId ==> x.refundDate <= y.createdAt
      ensures exists y :: y in rs && y.orderId == x.orderId && y.createdAt == x.refundDate
    {
      MatchesItemsUnfold(x, rs);
    }
  }

  lemma MatchesItemsUnfold(x: Refund, rs: seq<ItemRefund>)
    requires RefundMatchesItems(x, rs)
    ensures x.reason == "Refund" && x.refundId == IntToString(x.orderId)
    ensures x.refundAmount == Sum(ItemsOfOrder(rs, x.orderId), ItemRefundAmount)
    ensures forall y :: y in rs && y.orderId == x.orderId ==> x.refundDate <= y.createdAt
    ensures exists y :: y in rs && y.orderId == x.orderId && y.createdAt == x.refundDate
  {
  }

  /** When some aggregated refund exceeded its order's amount, every
      surviving refund has a matching order and is at most its amount. */
  lemma BuildNormalizedRefundsWithinOrder(rs: seq<ItemRefund>, os: seq<CleanOrder>)
    requires Count(AggregateRefunds(rs, os), ExceedsMask) > 0
    ensures forall x :: x in BuildNormalizedRefunds(rs, os) ==>
              OrderAmount(os, x.orderId).Some? && x.refundAmount <= OrderAmount(os, x.orderId).value
  {
    var agg := AggregateRefunds(rs, os);
    ValidatedWithinOrder(agg, rs, os);
    assert BuildNormalizedRefunds(rs, os) == Map(ValidateRefunds(agg), ToRefund);
  }

  /** When no aggregated refund exceeded its order's amount, every
      refunded order keeps its row, even one with no matching order. */
  lemma BuildNormalizedRefundsComplete(rs: seq<ItemRefund>, os: seq<CleanOrder>)
    requires Count(AggregateRefunds(rs, os), ExceedsMask) == 0
    ensures forall y :: y in rs ==> exists x :: x in BuildNormalizedRefunds(rs, os) && x.orderId == y.orderId
  {
    CompleteFromAggregate(AggregateRefunds(rs, os), rs);
  }

  lemma CompleteFromAggregate(agg: seq<RefundAgg>, rs: seq<ItemRefund>)
    requires Count(agg, ExceedsMask) == 0
    requires forall y :: y in rs ==> exists a :: a in agg && a.orderId == y.orderId
    ensures forall y :: y in rs ==> exists x :: x in Map(ValidateRefunds(agg), ToRefund) && x.orderId == y.orderId
  {
    var r := Map(agg, ToRefund);
    assert ValidateRefunds(agg) == agg;
    forall y | y in rs ensures exists x :: x in r && x.orderId == y.orderId {
      var a :| a in agg && a.orderId == y.orderId;
      var i :| 0 <= i < |agg| && agg[i] == a;
      assert r[i] in r;
    }
  }

  /** A subsequence of rows in strictly increasing order of `order_id` is
      in strictly increasing order too. */
  lemma {:induction false} SortedSubsequence(a: seq<RefundAgg>, b: seq<RefundAgg>)
    requires IsSubsequence(a, b)
    requires forall i, j :: 0 <= i < j < |b| ==> b[i].orderId < b[j].orderId
    ensures forall i, j :: 0 <= i < j < |a| ==> a[i].orderId < a[j].orderId
    decreases |b|
  {
    if a != [] {
      if a[0] == b[0] && IsSubsequence(a[1..], b[1..]) {
        SortedSubsequence(a[1..], b[1..]);
        SubsequenceMembers(a[1..], b[1..]);
        forall i, j | 0 <= i < j < |a| ensures a[i].orderId < a[j].orderId {
          if i == 0 {
            assert a[j] in a[1..];
            var k :| 0 <= k < |b[1..]| && b[1..][k] == a[j];
            assert b[k + 1] == a[j];
          } else {
            assert a[i] == a[1..][i - 1] && a[j] == a[1..][j - 1];
          }
        }
      } else {
        SortedSubsequence(a, b[1..]);
      }
    }
  }
}
