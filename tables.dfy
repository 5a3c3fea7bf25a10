/** The normalized analytical tables the dashboard backend reads
    (`sessions.csv`, `orders.csv`, `refunds.csv`), the date window every KPI
    and analysis function filters by, and the optional channel and device
    filters. Money is in integer cents; timestamps are integer seconds. */
module Tables {
  import opened Seqs

  /** One row of the normalized `sessions` table. A missing channel or
      device is None; grouping drops such rows. */
  datatype Session = Session(
    sessionId: int,
    userId: int,
    timestamp: int,
    channel: Option<string>,
    device: Option<string>,
    isRepeatSession: int)

  /** One row of the normalized `orders` table. */
  datatype Order = Order(
    orderId: int,
    sessionId: int,
    userId: int,
    orderDate: int,
    totalAmount: int,
    itemsCount: int)

  /** One row of the normalized `refunds` table (one row per refunded order). */
  datatype Refund = Refund(
    refundId: string,
    orderId: int,
    refundDate: int,
    refundAmount: int,
    reason: string)

  /** `date_filter = (start_date, end_date)`; both ends are inclusive. */
  datatype Window = Window(start: int, end: int)

  /** The optional date filter: None is "no filter". */
  type DateFilter = Option<Window>

  /** The row's time passes the date filter. */
  predicate InWindow(w: DateFilter, t: int) {
    w.None? || w.value.start <= t <= w.value.end
  }

  /** A channel or device filter is applied only when it is a non-empty
      string (Python truthiness of `channel_filter`). */
  predicate Active(f: Option<string>) {
    f.Some? && f.value != ""
  }

  const SecondsPerDay: int := 86400

  /** `.dt.date`: the calendar day of a timestamp, as a day number. */
  function DayOf(t: int): int {
    t / SecondsPerDay
  }

  function SessionInWindow(w: DateFilter): Session -> bool {
    (s: Session) => InWindow(w, s.timestamp)
  }

  function OrderInWindow(w: DateFilter): Order -> bool {
    (o: Order) => InWindow(w, o.orderDate)
  }

  function RefundInWindow(w: DateFilter): Refund -> bool {
    (r: Refund) => InWindow(w, r.refundDate)
  }

  /** `if date_filter: df = df[(ts >= start) & (ts <= end)]` on sessions. */
  function SessionsIn(ss: seq<Session>, w: DateFilter): (r: seq<Session>)
    ensures r == Filter(ss, SessionInWindow(w))
  {
    if w.Some? then Filter(ss, SessionInWindow(w))
    else
      FilterAllTrue(ss, SessionInWindow(w));
      ss
  }

  /** The same window filter on orders, by `order_date`. */
  function OrdersIn(os: seq<Order>, w: DateFilter): (r: seq<Order>)
    ensures r == Filter(os, OrderInWindow(w))
  {
    if w.Some? then Filter(os, OrderInWindow(w))
    else
      FilterAllTrue(os, OrderInWindow(w));
      os
  }

  /** The same window filter on refunds, by `refund_date`. */
  function RefundsIn(rs: seq<Refund>, w: DateFilter): (r: seq<Refund>)
    ensures r == Filter(rs, RefundInWindow(w))
  {
    if w.Some? then Filter(rs, RefundInWindow(w))
    else
      FilterAllTrue(rs, RefundInWindow(w));
      rs
  }

  // Column accessors used as grouping keys and summed columns.

  function SessionIdOf(s: Session): int { s.sessionId }
  function OrderIdOf(o: Order): int { o.orderId }
  function OrderSessionOf(o: Order): int { o.sessionId }
  function OrderAmountOf(o: Order): int { o.totalAmount }
  function RefundOrderOf(r: Refund): int { r.orderId }
  function RefundAmountOf(r: Refund): int { r.refundAmount }
  function SessionChannel(s: Session): Option<string> { s.channel }
  function SessionDevice(s: Session): Option<string> { s.device }
  function SessionDay(s: Session): Option<int> { Some(DayOf(s.timestamp)) }
  function OrderDay(o: Order): Option<int> { Some(DayOf(o.orderDate)) }
  function RefundDay(r: Refund): Option<int> { Some(DayOf(r.refundDate)) }
  function RefundReason(r: Refund): Option<string> { Some(r.reason) }
}
