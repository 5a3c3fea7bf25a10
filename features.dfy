/** The feature step of the API server (`server/services/feature_engineer.py`):
    each master row gains a traffic channel, a customer segment, the highest
    refund risk among the products bought in the session, and time-of-day
    features. The risk of a product is the share of refunded orders among
    its order items. The calendar is a parameter: the hour and the weekday
    of a timestamp are given functions. */
module Features {
  import opened Seqs
  import opened Text
  import opened ServerCleaner

  // ---------------------------------------------------------------------
  // Traffic channel

  /** The five channel labels. */
  const ChannelLabels: set<string> := {"Direct", "Paid Search", "Organic Search", "Social", "Other"}

  /** `str(row.get(col, ''))`: the empty string when the column is absent,
      `"nan"` for a missing cell. */
  function CellText(present: bool, c: Option<string>): string {
    if !present then "" else c.GetOr("nan")
  }

  /** `define_channel` on the source and campaign texts. */
  function DefineChannel(sourceText: string, campaignText: string): (r: string)
    ensures r in ChannelLabels
  {
    var source := Lower(sourceText);
    var campaign := Lower(campaignText);
    if source == "direct" then "Direct"
    else if Contains(source, "gsearch") || Contains(source, "bsearch") then
      if Contains(campaign, "nonbrand") || Contains(campaign, "brand") then "Paid Search" else "Organic Search"
    else if Contains(source, "social") then "Social"
    else "Other"
  }

  /** Any campaign that contains "nonbrand" contains "brand". */
  lemma NonbrandContainsBrand(c: string)
    requires Contains(c, "nonbrand")
    ensures Contains(c, "brand")
  {
    assert OccursAt("nonbrand", "brand", 3);
    ContainsTransitive(c, "nonbrand", "brand", 3);
  }

  /** The rules in priority order: a search source is paid exactly when its
      campaign mentions "brand" (so "nonbrand" campaigns are paid too). */
  lemma DefineChannelRules(sourceText: string, campaignText: string)
    ensures var r := DefineChannel(sourceText, campaignText);
            var source := Lower(sourceText);
            var campaign := Lower(campaignText);
            var search := Contains(source, "gsearch") || Contains(source, "bsearch");
            && (source == "direct" <==> r == "Direct")
            && (source != "direct" && search ==> (r == "Paid Search" <==> Contains(campaign, "brand")))
            && (source != "direct" && search && !Contains(campaign, "brand") ==> r == "Organic Search")
            && (r == "Paid Search" || r == "Organic Search" <==> source != "direct" && search)
            && (r == "Social" <==> source != "direct" && !search && Contains(source, "social"))
            && (r == "Other" <==> source != "direct" && !search && !Contains(source, "social"))
  {
    var campaign := Lower(campaignText);
    if Contains(campaign, "nonbrand") {
      NonbrandContainsBrand(campaign);
    }
  }

  /** A session whose source is absent or missing lands in "Other". */
  lemma DefineChannelMissingSource(present: bool, campaignText: string)
    ensures DefineChannel(CellText(present, None), campaignText) == "Other"
  {
    var source := Lower(CellText(present, None));
    assert source == "" || source == "nan";
    NoSearchInShort(source, "gsearch");
    NoSearchInShort(source, "bsearch");
    NoSearchInShort(source, "social");
  }

  lemma NoSearchInShort(s: string, sub: string)
    requires |s| < |sub|
    ensures !Contains(s, sub)
  {
    ContainsIff(s, sub);
  }

  // ---------------------------------------------------------------------
  // Customer segment

  /** `is_repeat_session.map({0: 'New', 1: 'Returning'})`: any other value
      maps to a missing cell. */
  function Segment(isRepeat: Option<int>): (r: Option<string>)
    ensures r == Some("New") <==> isRepeat == Some(0)
    ensures r == Some("Returning") <==> isRepeat == Some(1)
    ensures r.None? <==> isRepeat != Some(0) && isRepeat != Some(1)
  {
    if isRepeat == Some(0) then Some("New")
    else if isRepeat == Some(1) then Some("Returning")
    else None
  }

  // ---------------------------------------------------------------------
  // Product risk

  function WasRefundedCell(o: ServerOrder): Option<int> { o.wasRefunded }
  function OrderSessionCell(o: ServerOrder): Option<int> { Some(o.sessionId) }
  function IntValue(i: int): int { i }

  function ItemOfProduct(pid: int): ServerItem -> bool { (x: ServerItem) => x.productId == pid }

  /** The refund flag the left merge with the orders brings to an item. */
  function ItemRefundFlag(orders: seq<ServerOrder>): ServerItem -> Option<int> {
    (x: ServerItem) => Lookup(orders, ServerOrderId, WasRefundedCell, x.orderId)
  }

  /** `groupby('product_id')['was_refunded'].mean()` for one product:
      missing flags are skipped, and a product with no known flag (or no
      item) has no risk. */
  function ProductRisk(items: seq<ServerItem>, orders: seq<ServerOrder>, pid: int): (r: Option<real>)
    ensures var flags := FilterMap(Filter(items, ItemOfProduct(pid)), ItemRefundFlag(orders));
            && (r.None? <==> flags == [])
            && (r.Some? ==> IsRatio(r.value, Sum(flags, IntValue), |flags|))
  {
    var flags := FilterMap(Filter(items, ItemOfProduct(pid)), ItemRefundFlag(orders));
    if flags == [] then None else Some(Ratio(Sum(flags, IntValue), |flags|))
  }

  /** The order flags are 0/1 flags (or missing), as the master build
      stamps them. */
  ghost predicate FlagsAreBinary(orders: seq<ServerOrder>) {
    forall o :: o in orders && o.wasRefunded.Some? ==> 0 <= o.wasRefunded.value <= 1
  }

  /** With 0/1 flags a product's risk is a share: it lies in [0, 1]. */
  lemma ProductRiskInUnit(items: seq<ServerItem>, orders: seq<ServerOrder>, pid: int)
    requires FlagsAreBinary(orders)
    requires ProductRisk(items, orders, pid).Some?
    ensures 0.0 <= ProductRisk(items, orders, pid).value <= 1.0
  {
    var flags := FilterMap(Filter(items, ItemOfProduct(pid)), ItemRefundFlag(orders));
    forall f | f in flags ensures 0 <= IntValue(f) <= 1 {
      var x :| x in Filter(items, ItemOfProduct(pid)) && ItemRefundFlag(orders)(x) == Some(f);
      var o :| o in orders && ServerOrderId(o) == x.orderId && WasRefundedCell(o) == Some(f);
    }
    SumOfFlagsBounded(flags, IntValue);
  }

  /** The items of the orders of session `k` (the inner merge with the
      orders on `order_id`). */
  function SessionItems(items: seq<ServerItem>, orders: seq<ServerOrder>, k: int): seq<ServerItem> {
    Filter(items, (x: ServerItem) => Lookup(orders, ServerOrderId, OrderSessionCell, x.orderId) == Some(k))
  }

  function ItemRisk(items: seq<ServerItem>, orders: seq<ServerOrder>): ServerItem -> Option<real> {
    (x: ServerItem) => ProductRisk(items, orders, x.productId)
  }

  /** `max` over the known risks of a session, 0.0 when there is none (the
      `fillna(0.0)` after the merge). */
  function MaxOrZero(s: seq<real>): (m: real)
    ensures s == [] ==> m == 0.0
    ensures s != [] ==> m in s
    ensures forall x :: x in s ==> x <= m
  {
    if s == [] then 0.0
    else if |s| == 1 then s[0]
    else
      var rest := MaxOrZero(s[1..]);
      assert forall x :: x in s ==> x == s[0] || x in s[1..];
      if s[0] >= rest then s[0] else rest
  }

  /** `max_product_risk` of session `k`. */
  function MaxProductRisk(items: seq<ServerItem>, orders: seq<ServerOrder>, k: int): (m: real)
    ensures (forall x :: x in SessionItems(items, orders, k) ==> ProductRisk(items, orders, x.productId).None?) ==> m == 0.0
    ensures forall x :: x in SessionItems(items, orders, k) && ProductRisk(items, orders, x.productId).Some? ==>
              ProductRisk(items, orders, x.productId).value <= m
    ensures m != 0.0 ==> exists x :: x in SessionItems(items, orders, k) && ProductRisk(items, orders, x.productId) == Some(m)
  {
    var risks := FilterMap(SessionItems(items, orders, k), ItemRisk(items, orders));
    assert risks != [] ==> risks[0] in risks;
    MaxOrZero(risks)
  }

  /** A session's risk is 0.0 when none of its items has a known risk,
      otherwise the risk of one of its items' products and at least the
      risk of each; with 0/1 flags it lies in [0, 1]. */
  lemma MaxProductRiskFacts(items: seq<ServerItem>, orders: seq<ServerOrder>, k: int)
    ensures var m := MaxProductRisk(items, orders, k);
            var s := SessionItems(items, orders, k);
            && ((forall x :: x in s ==> ProductRisk(items, orders, x.productId).None?) ==> m == 0.0)
            && (forall x :: x in s && ProductRisk(items, orders, x.productId).Some? ==>
                  ProductRisk(items, orders, x.productId).value <= m)
            && (m != 0.0 ==> exists x :: x in s && ProductRisk(items, orders, x.productId) == Some(m))
            && (FlagsAreBinary(orders) ==> 0.0 <= m <= 1.0)
  {
    var s := SessionItems(items, orders, k);
    var risks := FilterMap(s, ItemRisk(items, orders));
    if FlagsAreBinary(orders) && risks != [] {
      var x :| x in s && ItemRisk(items, orders)(x) == Some(MaxProductRisk(items, orders, k));
      ProductRiskInUnit(items, orders, x.productId);
      forall y | y in risks ensures 0.0 <= y {
        var z :| z in s && ItemRisk(items, orders)(z) == Some(y);
        ProductRiskInUnit(items, orders, z.productId);
      }
    }
  }

  // ---------------------------------------------------------------------
  // Time features

  /** `dt.dayofweek`: Monday is 0. */
  type Weekday = d: int | 0 <= d < 7

  /** The calendar of a timestamp, left abstract. */
  datatype Calendar = Calendar(hourOf: int -> int, weekdayOf: int -> Weekday)

  const DayNames: seq<string> := ["Monday", "Tuesday", "Wednesday", "Thursday", "Friday", "Saturday", "Sunday"]

  /** `dt.dayofweek >= 5`; a missing date compares false. */
  function IsWeekend(cal: Calendar, date: Option<int>): (b: bool)
    ensures b <==> date.Some? && cal.weekdayOf(date.value) >= 5
  {
    date.Some? && cal.weekdayOf(date.value) >= 5
  }

  // ---------------------------------------------------------------------
  // The featured master table

  /** A master row with the engineered columns. `campaign` is the
      `utm_campaign` cell the channel reads. */
  datatype FeaturedRow = FeaturedRow(
    master: MasterRow,
    campaign: Option<string>,
    trafficChannel: string,
    customerSegment: Option<string>,
    maxProductRisk: real,
    hourOfDay: Option<int>,
    dayOfWeek: Option<string>,
    isWeekend: bool)

  const FeaturesAdded: seq<string> := ["traffic_channel", "customer_segment", "max_product_risk", "time_features"]

  /** The `utm_campaign` merged from the sessions when the master has none. */
  function CampaignOf(masterColumns: set<string>, sessions: seq<ServerSession>, m: MasterRow): (r: Option<string>)
    ensures "utm_campaign" in masterColumns ==> r == m.session.utmCampaign
    ensures "utm_campaign" !in masterColumns && r.Some? ==>
              exists s :: s in sessions && s.sessionId == m.session.sessionId && s.utmCampaign == r
    ensures "utm_campaign" !in masterColumns && (forall s :: s in sessions ==> s.sessionId != m.session.sessionId) ==>
              r.None?
    ensures "utm_campaign" !in masterColumns && KeysDistinct(sessions, ServerSessionId) ==>
              forall s :: s in sessions && s.sessionId == m.session.sessionId ==> r == s.utmCampaign
  {
    if "utm_campaign" in masterColumns then m.session.utmCampaign
    else
      var r := Lookup(sessions, ServerSessionId, CampaignCell, m.session.sessionId);
      assert KeysDistinct(sessions, ServerSessionId) ==>
               forall s :: s in sessions && s.sessionId == m.session.sessionId ==> r == s.utmCampaign by {
        if KeysDistinct(sessions, ServerSessionId) {
          forall s | s in sessions && s.sessionId == m.session.sessionId ensures r == s.utmCampaign {
            LookupUnique(sessions, ServerSessionId, CampaignCell, s);
          }
        }
      }
      r
  }

  function CampaignCell(s: ServerSession): Option<string> { s.utmCampaign }

  /** One row of `engineer_features`. */
  function FeatureRow(masterColumns: set<string>, sessions: seq<ServerSession>, orders: seq<ServerOrder>,
                      items: seq<ServerItem>, cal: Calendar, m: MasterRow): (f: FeaturedRow)
    ensures f.master == m
    ensures f.trafficChannel in ChannelLabels
    ensures f.trafficChannel == DefineChannel(CellText("traffic_source" in masterColumns, m.session.trafficSource),
                                              CellText(true, f.campaign))
    ensures "is_repeat_session" in masterColumns ==> f.customerSegment == Segment(m.session.isRepeatSession)
    ensures "is_repeat_session" !in masterColumns ==> f.customerSegment.None?
    ensures f.maxProductRisk == MaxProductRisk(items, orders, m.session.sessionId)
    ensures f.isWeekend <==> m.session.sessionDate.Some? && cal.weekdayOf(m.session.sessionDate.value) >= 5
    ensures f.campaign == CampaignOf(masterColumns, sessions, m)
    ensures f.hourOfDay == if m.session.sessionDate.Some? then Some(cal.hourOf(m.session.sessionDate.value)) else None
    ensures f.dayOfWeek == if m.session.sessionDate.Some? then Some(DayNames[cal.weekdayOf(m.session.sessionDate.value)]) else None
  {
    var campaign := CampaignOf(masterColumns, sessions, m);
    var date := m.session.sessionDate;
    FeaturedRow(
      m, campaign,
      DefineChannel(CellText("traffic_source" in masterColumns, m.session.trafficSource), CellText(true, campaign)),
      if "is_repeat_session" in masterColumns then Segment(m.session.isRepeatSession) else None,
      MaxProductRisk(items, orders, m.session.sessionId),
      if date.Some? then Some(cal.hourOf(date.value)) else None,
      if date.Some? then Some(DayNames[cal.weekdayOf(date.value)]) else None,
      IsWeekend(cal, date))
  }

  /** The columns of the featured master table. */
  function FeaturedColumns(masterColumns: set<string>): set<string> {
    masterColumns + {"utm_campaign", "traffic_channel", "max_product_risk", "hour_of_day", "day_of_week", "is_weekend"}
    + (if "is_repeat_session" in masterColumns then {"customer_segment"} else {})
  }

  /** `BearCartFeatureEngineer`: its one field is the feature report. */
  class FeatureEngineer {
    var featureReport: map<string, seq<string>>

    constructor ()
      ensures featureReport == map[]
    {
      featureReport := map[];
    }

    /** `engineer_features`. The source reads `utm_campaign` from the master
        table or, failing that, from the sessions; it reads `was_refunded`
        from the orders and `session_date` from the master table. While the
        master table still is the caller's frame (it has `utm_campaign`, so
        no merge has replaced it), the channel and segment columns are
        assigned to that frame. */
    method EngineerFeatures(master: Frame<MasterRow>, sessions: Frame<ServerSession>, orders: Frame<ServerOrder>,
                            items: Frame<ServerItem>, cal: Calendar) returns (r: Frame<FeaturedRow>)
      requires "utm_campaign" in master.columns || "utm_campaign" in sessions.columns
      requires "was_refunded" in orders.columns && "session_date" in master.columns
      modifies this, master
      ensures fresh(r)
      ensures r.columns == FeaturedColumns(old(master.columns))
      ensures |r.rows| == |old(master.rows)|
      ensures forall i :: 0 <= i < |r.rows| ==>
                r.rows[i] == FeatureRow(old(master.columns), sessions.rows, orders.rows, items.rows, cal, old(master.rows)[i])
      ensures "utm_campaign" in old(master.columns) ==>
                master.columns == old(master.columns) + {"traffic_channel"}
                                  + (if "is_repeat_session" in old(master.columns) then {"customer_segment"} else {})
      ensures "utm_campaign" !in old(master.columns) ==> master.columns == old(master.columns)
      ensures master.rows == old(master.rows)
      ensures featureReport == old(featureReport)["features_added" := FeaturesAdded]
    {
      var columns, ss, os, xs := master.columns, sessions.rows, orders.rows, items.rows;
      var rows := Map(master.rows, (m: MasterRow) => FeatureRow(columns, ss, os, xs, cal, m));
      if "utm_campaign" in columns {
        master.columns := columns + {"traffic_channel"}
                          + (if "is_repeat_session" in columns then {"customer_segment"} else {});
      }
      featureReport := featureReport["features_added" := FeaturesAdded];
      r := new Frame(FeaturedColumns(columns), rows);
    }
  }
}
