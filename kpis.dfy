/** The dashboard's headline KPIs (`BearCart/backend/kpis.py`): counts,
    sums, means and ratios over the normalized tables, restricted to an
    inclusive date window and, for sessions, to a channel and a device.
    Every division has a zero sentinel for an empty denominator. */
module Kpis {
  import opened Seqs
  import opened Tables

  function ChannelIs(c: string): Session -> bool {
    (s: Session) => s.channel == Some(c)
  }

  function DeviceIs(d: string): Session -> bool {
    (s: Session) => s.device == Some(d)
  }

  /** The reference definition: a session counts when it passes every
      active filter at once. */
  function Selected(w: DateFilter, cf: Option<string>, df: Option<string>): Session -> bool {
    (s: Session) => IsSelected(w, cf, df, s)
  }

  predicate IsSelected(w: DateFilter, cf: Option<string>, df: Option<string>, s: Session) {
    && InWindow(w, s.timestamp)
    && (!Active(cf) || s.channel == Some(cf.value))
    && (!Active(df) || s.device == Some(df.value))
  }

  /** The sessions left after the date, channel and device filters are
      applied one after the other (each only when given). */
  function FilteredSessions(ss: seq<Session>, w: DateFilter, cf: Option<string>, df: Option<string>): (r: seq<Session>)
    ensures r == Filter(ss, Selected(w, cf, df))
  {
    var a := SessionsIn(ss, w);
    var b := if Active(cf) then Filter(a, ChannelIs(cf.value)) else a;
    var c := if Active(df) then Filter(b, DeviceIs(df.value)) else b;
    FilteredSessionsIsSelected(ss, w, cf, df);
    c
  }

  lemma FilteredSessionsIsSelected(ss: seq<Session>, w: DateFilter, cf: Option<string>, df: Option<string>)
    ensures var a := SessionsIn(ss, w);
            var b := if Active(cf) then Filter(a, ChannelIs(cf.value)) else a;
            var c := if Active(df) then Filter(b, DeviceIs(df.value)) else b;
            c == Filter(ss, Selected(w, cf, df))
  {
    var a := SessionsIn(ss, w);
    var b := if Active(cf) then Filter(a, ChannelIs(cf.value)) else a;
    if Active(cf) {
      FilterFilter(ss, SessionInWindow(w), ChannelIs(cf.value), Selected(w, cf, None));
    } else {
      FilterCongruent(ss, SessionInWindow(w), Selected(w, cf, None));
    }
    assert b == Filter(ss, Selected(w, cf, None));
    if Active(df) {
      FilterFilter(ss, Selected(w, cf, None), DeviceIs(df.value), Selected(w, cf, df));
    } else {
      FilterCongruent(ss, Selected(w, cf, None), Selected(w, cf, df));
    }
  }

  /** `calculate_total_sessions`: the length of the filtered frame. */
  function TotalSessions(ss: seq<Session>, w: DateFilter, cf: Option<string>, df: Option<string>): (n: nat)
    ensures n == |FilteredSessions(ss, w, cf, df)|
    ensures n <= |ss|
  {
    FilterIsCount(ss, Selected(w, cf, df));
    Count(ss, Selected(w, cf, df))
  }

  /** Adding a filter never increases the session count, and with no
      filter every session counts. */
  lemma TotalSessionsMonotone(ss: seq<Session>, w: DateFilter, cf: Option<string>, df: Option<string>)
    ensures TotalSessions(ss, w, cf, df) <= TotalSessions(ss, None, cf, df)
    ensures TotalSessions(ss, w, cf, df) <= TotalSessions(ss, w, None, df)
    ensures TotalSessions(ss, w, cf, df) <= TotalSessions(ss, w, cf, None)
    ensures TotalSessions(ss, None, None, None) == |ss|
  {
    CountMonotone(ss, Selected(w, cf, df), Selected(None, cf, df));
    CountMonotone(ss, Selected(w, cf, df), Selected(w, None, df));
    CountMonotone(ss, Selected(w, cf, df), Selected(w, cf, None));
    FilterAllTrue(ss, Selected(None, None, None));
    FilterIsCount(ss, Selected(None, None, None));
  }

  /** A session inside the window and with the requested channel and
      device is counted. */
  lemma TotalSessionsCounts(ss: seq<Session>, w: DateFilter, cf: Option<string>, df: Option<string>, s: Session)
    requires s in ss && Selected(w, cf, df)(s)
    ensures s in FilteredSessions(ss, w, cf, df)
    ensures TotalSessions(ss, w, cf, df) >= 1
  {
  }

  /** `calculate_total_orders`. */
  function TotalOrders(os: seq<Order>, w: DateFilter): (n: nat)
    ensures n == Count(os, OrderInWindow(w))
    ensures n <= |os|
    ensures w.None? ==> n == |os|
  {
    FilterIsCount(os, OrderInWindow(w));
    |OrdersIn(os, w)|
  }

  /** `set(sessions_filtered["session_id"])`. */
  function SessionIds(ss: seq<Session>): (ids: set<int>)
    ensures forall s :: s in ss ==> s.sessionId in ids
    ensures forall id :: id in ids ==> exists s :: s in ss && s.sessionId == id
  {
    set s | s in ss :: s.sessionId
  }

  function SessionAmong(ids: set<int>): Order -> bool {
    (o: Order) => o.sessionId in ids
  }

  /** The in-window orders placed in one of the filtered sessions. */
  function ConvertedOrders(ss: seq<Session>, os: seq<Order>, w: DateFilter,
                           cf: Option<string>, df: Option<string>): (r: seq<Order>)
    ensures forall o :: o in r <==>
              o in os && InWindow(w, o.orderDate)
              && exists s :: s in ss && Selected(w, cf, df)(s) && s.sessionId == o.sessionId
  {
    Filter(OrdersIn(os, w), SessionAmong(SessionIds(FilteredSessions(ss, w, cf, df))))
  }

  /** `calculate_conversion_rate`, in percent. */
  function ConversionRate(ss: seq<Session>, os: seq<Order>, w: DateFilter,
                          cf: Option<string>, df: Option<string>): (r: real)
    ensures r >= 0.0
    ensures TotalSessions(ss, w, cf, df) == 0 ==> r == 0.0
    ensures TotalSessions(ss, w, cf, df) > 0 ==>
              IsPercentOf(r, |ConvertedOrders(ss, os, w, cf, df)|, TotalSessions(ss, w, cf, df))
  {
    var n := TotalSessions(ss, w, cf, df);
    if n == 0 then 0.0
    else
      var k := |ConvertedOrders(ss, os, w, cf, df)|;
      PercentOf(k, n)
  }

  /** `r` is `k` out of `n`, in percent. */
  predicate IsPercentOf(r: real, k: nat, n: nat) {
    r * n as real == 100.0 * k as real
  }

  /** `(k / n) * 100` for a positive `n`. */
  function PercentOf(k: nat, n: nat): (r: real)
    requires n > 0
    ensures r >= 0.0
    ensures IsPercentOf(r, k, n)
    ensures k <= n ==> r <= 100.0
  {
    var q := k as real / n as real;
    assert q * n as real == k as real;
    if k <= n then
      assert q <= 1.0 by {
        CancelPositive(q, 1.0, n as real);
      }
      q * 100.0
    else
      q * 100.0
  }

  /** The conversion rate is a percentage when each filtered session has
      at most one in-window order (distinct session ids among the counted
      orders). */
  lemma ConversionRateAtMost100(ss: seq<Session>, os: seq<Order>, w: DateFilter,
                                cf: Option<string>, df: Option<string>)
    requires KeysDistinct(ConvertedOrders(ss, os, w, cf, df), OrderSessionOf)
    ensures ConversionRate(ss, os, w, cf, df) <= 100.0
  {
    var fs := FilteredSessions(ss, w, cf, df);
    var co := ConvertedOrders(ss, os, w, cf, df);
    if |fs| > 0 {
      DistinctIffImageFull(co, OrderSessionOf);
      assert Image(co, OrderSessionOf) <= Image(fs, SessionIdOf) by {
        forall id | id in Image(co, OrderSessionOf) ensures id in Image(fs, SessionIdOf) {
          var o :| o in co && OrderSessionOf(o) == id;
          var s :| s in ss && Selected(w, cf, df)(s) && s.sessionId == o.sessionId;
          assert s in fs;
          assert SessionIdOf(s) == id;
        }
      }
      ImageSubsetBound(co, OrderSessionOf, fs, SessionIdOf);
    }
  }

  /** `calculate_revenue`: the sum of `total_amount` over in-window orders. */
  function Revenue(os: seq<Order>, w: DateFilter): (r: int)
    ensures r == Sum(Filter(os, OrderInWindow(w)), OrderAmountOf)
    ensures w.None? ==> r == Sum(os, OrderAmountOf)
  {
    Sum(OrdersIn(os, w), OrderAmountOf)
  }

  /** `calculate_average_order_value`: the mean `total_amount` of the
      in-window orders, 0.0 when there are none. */
  function AverageOrderValue(os: seq<Order>, w: DateFilter): (r: real)
    ensures TotalOrders(os, w) == 0 ==> r == 0.0
    ensures TotalOrders(os, w) > 0 ==> IsRatio(r, Revenue(os, w), TotalOrders(os, w))
  {
    var n := |OrdersIn(os, w)|;
    if n == 0 then 0.0 else Ratio(Revenue(os, w), n)
  }

  /** The mean lies between the smallest and the largest order amount. */
  lemma AverageOrderValueBounds(os: seq<Order>, w: DateFilter, lo: int, hi: int)
    requires TotalOrders(os, w) > 0
    requires forall o :: o in os ==> lo <= o.totalAmount <= hi
    ensures lo as real <= AverageOrderValue(os, w) <= hi as real
  {
    var ins := OrdersIn(os, w);
    SumBounds(ins, OrderAmountOf, lo, hi);
    MeanBounds(AverageOrderValue(os, w), Revenue(os, w), |ins|, lo, hi);
  }

  lemma MeanBounds(r: real, total: int, n: nat, lo: int, hi: int)
    requires n > 0 && IsRatio(r, total, n)
    requires n * lo <= total <= n * hi
    ensures lo as real <= r <= hi as real
  {
    assert (n * lo) as real == lo as real * n as real;
    assert (n * hi) as real == hi as real * n as real;
    CancelPositive(lo as real, r, n as real);
    CancelPositive(r, hi as real, n as real);
  }

  /** Dividing both sides by a positive factor keeps the order. */
  lemma CancelPositive(a: real, b: real, c: real)
    requires c > 0.0 && a * c <= b * c
    ensures a <= b
  {
  }

  lemma MulSucc(n: int, x: int)
    ensures (n + 1) * x == n * x + x
  {
  }

  lemma {:induction false} SumBounds<T>(s: seq<T>, v: T -> int, lo: int, hi: int)
    requires forall x :: x in s ==> lo <= v(x) <= hi
    ensures |s| * lo <= Sum(s, v) <= |s| * hi
  {
    if s != [] {
      var t := s[1..];
      assert forall x :: x in t ==> x in s;
      SumBounds(t, v, lo, hi);
      assert s[0] in s;
      MulSucc(|t|, lo);
      MulSucc(|t|, hi);
    }
  }

  /** `calculate_revenue_per_session`: the date-filtered revenue divided by
      the date-, channel- and device-filtered session count (the revenue
      side ignores the channel and device), 0.0 without sessions. */
  function RevenuePerSession(ss: seq<Session>, os: seq<Order>, w: DateFilter,
                             cf: Option<string>, df: Option<string>): (r: real)
    ensures TotalSessions(ss, w, cf, df) == 0 ==> r == 0.0
    ensures TotalSessions(ss, w, cf, df) > 0 ==>
              IsRatio(r, Revenue(os, w), TotalSessions(ss, w, cf, df))
  {
    var sessions := TotalSessions(ss, w, cf, df);
    if sessions > 0 then Ratio(Revenue(os, w), sessions) else 0.0
  }

  /** `refunds_df["order_id"].unique()` over the in-window refunds. */
  function RefundedOrderIds(rs: seq<Refund>, w: DateFilter): (ids: set<int>)
    ensures forall id :: id in ids <==> exists r :: r in rs && InWindow(w, r.refundDate) && r.orderId == id
  {
    var ins := RefundsIn(rs, w);
    set r | r in ins :: r.orderId
  }

  /** `calculate_refund_rate`, in percent: distinct refunded orders over
      in-window orders, 0.0 when there are no in-window orders. */
  function RefundRate(os: seq<Order>, rs: seq<Refund>, w: DateFilter): (r: real)
    ensures r >= 0.0
    ensures TotalOrders(os, w) == 0 ==> r == 0.0
    ensures TotalOrders(os, w) > 0 ==>
              IsPercentOf(r, |RefundedOrderIds(rs, w)|, TotalOrders(os, w))
  {
    var total := |OrdersIn(os, w)|;
    if total == 0 then 0.0 else PercentOf(|RefundedOrderIds(rs, w)|, total)
  }

  /** The refund rate is a percentage when every in-window refund belongs
      to an in-window order. */
  lemma RefundRateAtMost100(os: seq<Order>, rs: seq<Refund>, w: DateFilter)
    requires forall r :: r in rs && InWindow(w, r.refundDate) ==>
               exists o :: o in os && InWindow(w, o.orderDate) && o.orderId == r.orderId
    ensures RefundRate(os, rs, w) <= 100.0
  {
    var ins := OrdersIn(os, w);
    var ids := RefundedOrderIds(rs, w);
    if |ins| > 0 {
      assert ids <= Image(ins, OrderIdOf) by {
        forall id | id in ids ensures id in Image(ins, OrderIdOf) {
          var r :| r in rs && InWindow(w, r.refundDate) && r.orderId == id;
          var o :| o in os && InWindow(w, o.orderDate) && o.orderId == r.orderId;
          assert o in ins;
          assert OrderIdOf(o) == id;
        }
      }
      SetSubsetCard(ids, Image(ins, OrderIdOf));
      ImageBound(ins, OrderIdOf);
    }
  }

  /** `calculate_refund_value`: the sum of `refund_amount` over in-window
      refunds; with no date filter, over every refund. */
  function RefundValue(rs: seq<Refund>, w: DateFilter): (v: int)
    ensures v == Sum(Filter(rs, RefundInWindow(w)), RefundAmountOf)
    ensures w.None? ==> v == Sum(rs, RefundAmountOf)
  {
    Sum(RefundsIn(rs, w), RefundAmountOf)
  }

  /** With non-negative amounts, revenue and refund value are
      non-negative, and narrowing the window never raises them. */
  lemma TotalsNonNegative(os: seq<Order>, rs: seq<Refund>, w: DateFilter)
    requires forall o :: o in os ==> o.totalAmount >= 0
    requires forall r :: r in rs ==> r.refundAmount >= 0
    ensures 0 <= Revenue(os, w) <= Revenue(os, None)
    ensures 0 <= RefundValue(rs, w) <= RefundValue(rs, None)
  {
    SumWindowBound(os, OrderInWindow(w), OrderAmountOf);
    SumWindowBound(rs, RefundInWindow(w), RefundAmountOf);
  }

  lemma {:induction false} SumWindowBound<T>(s: seq<T>, p: T -> bool, v: T -> int)
    requires forall x :: x in s ==> v(x) >= 0
    ensures 0 <= Sum(Filter(s, p), v) <= Sum(s, v)
  {
    if s != [] {
      assert forall x :: x in s[1..] ==> x in s;
      SumWindowBound(s[1..], p, v);
      assert s[0] in s;
    }
  }
}
