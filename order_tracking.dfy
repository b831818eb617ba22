/** The order tracking page: the status and payment presentation rules, what the page shows,
    and its cached order, which every change notification simply replaces. */
module OrderTracking {
  import opened Wrappers
  import opened Records
  import opened Badges

  /** The six status values the page knows about. */
  const KnownStatuses: set<string> := {"pending", "confirmed", "preparing", "ready", "completed", "cancelled"}

  datatype Icon = ClockIcon | CheckCircleIcon | PackageIcon | TruckIcon | AlertCircleIcon

  datatype StatusInfo = StatusInfo(icon: Icon, color: string, text: string)

  /** `getStatusInfo`: the `switch` over the status string, with a `default` arm. */
  function GetStatusInfo(status: string): StatusInfo
  {
    match status
    case "pending" => StatusInfo(ClockIcon, "text-muted-foreground", "Order Received")
    case "confirmed" => StatusInfo(CheckCircleIcon, "text-blue-500", "Confirmed")
    case "preparing" => StatusInfo(PackageIcon, "text-accent", "Being Prepared")
    case "ready" => StatusInfo(TruckIcon, "text-success", "Ready for Pickup")
    case "completed" => StatusInfo(CheckCircleIcon, "text-success", "Completed")
    case "cancelled" => StatusInfo(AlertCircleIcon, "text-destructive", "Cancelled")
    case _ => StatusInfo(ClockIcon, "text-muted-foreground", "Processing")
  }

  /** Each known status has its own label; every other string, the empty one included, reads
      "Processing", so the mapping is total. */
  lemma StatusLabels(status: string)
    ensures status == "pending" ==> GetStatusInfo(status).text == "Order Received"
    ensures status == "confirmed" ==> GetStatusInfo(status).text == "Confirmed"
    ensures status == "preparing" ==> GetStatusInfo(status).text == "Being Prepared"
    ensures status == "ready" ==> GetStatusInfo(status).text == "Ready for Pickup"
    ensures status == "completed" ==> GetStatusInfo(status).text == "Completed"
    ensures status == "cancelled" ==> GetStatusInfo(status).text == "Cancelled"
    ensures GetStatusInfo(status).text == "Processing" <==> status !in KnownStatuses
  {
  }

  /** The label tells the known statuses apart: two statuses with the same label are equal, or
      both unknown. */
  lemma StatusLabelsDistinct(s1: string, s2: string)
    requires GetStatusInfo(s1).text == GetStatusInfo(s2).text
    ensures s1 == s2 || (s1 !in KnownStatuses && s2 !in KnownStatuses)
  {
  }

  /** `getPaymentStatusBadge`: fixed badges for success, pending and failed; any other value is
      shown as its raw text. */
  function PaymentStatusBadge(status: string): Badge
  {
    match status
    case "success" => Badge(None, Some("bg-success"), "Paid")
    case "pending" => Badge(Some(Outline), None, "Payment Pending")
    case "failed" => Badge(Some(Destructive), None, "Payment Failed")
    case _ => Badge(Some(Outline), None, status)
  }

  /** The three known payment states get their fixed texts; any other value is echoed verbatim. */
  lemma PaymentBadgeTexts(status: string)
    ensures status == "success" ==> PaymentStatusBadge(status).text == "Paid"
    ensures status == "pending" ==> PaymentStatusBadge(status).text == "Payment Pending"
    ensures status == "failed" ==> PaymentStatusBadge(status).text == "Payment Failed"
    ensures status !in {"success", "pending", "failed"} ==> PaymentStatusBadge(status).text == status
    ensures PaymentStatusBadge(status).className == Some("bg-success") <==> status == "success"
  {
  }

  /** The "Scan to Pay" card: `order.payment_status === 'pending' && order.payment_qr_code`. */
  predicate ShowsPaymentQr(order: OrderRecord)
  {
    order.paymentStatus == "pending" && Truthy(order.paymentQrCode)
  }

  /** The card is shown exactly while payment is pending and a non-empty QR code is stored; once
      the payment succeeds or fails it disappears. */
  lemma PaymentQrVisibility(order: OrderRecord)
    ensures ShowsPaymentQr(order) <==> order.paymentStatus == "pending" && order.paymentQrCode.Some?
                                         && order.paymentQrCode.value != ""
    ensures order.paymentStatus in {"success", "failed"} ==> !ShowsPaymentQr(order)
  {
  }

  /** The "Estimated Ready Time" field: a formatted time, or "Calculating..." (the formatted time
      is locale output, kept here as the stored timestamp). */
  datatype ReadyDisplay = Calculating | ReadyAt(timestamp: string)

  function EstimatedReadyDisplay(order: OrderRecord): (d: ReadyDisplay)
    ensures d.Calculating? <==> !Truthy(order.estimatedReadyTime)
    ensures d.ReadyAt? ==> d.timestamp == order.estimatedReadyTime.value
  {
    if Truthy(order.estimatedReadyTime) then ReadyAt(order.estimatedReadyTime.value) else Calculating
  }

  /** The per-item amounts the "Order Items" card shows, `item.price * item.quantity`. */
  function DisplayedSubtotals(rows: seq<OrderItemRow>): (amounts: seq<int>)
    ensures |amounts| == |rows|
  {
    if rows == [] then [] else [rows[0].price * rows[0].quantity] + DisplayedSubtotals(rows[1..])
  }

  function Sum(xs: seq<int>): int
  {
    if xs == [] then 0 else xs[0] + Sum(xs[1..])
  }

  /** Each shown amount is its row's price times quantity, and together they add up to the rows' total. */
  lemma {:induction false} DisplayedSubtotalsAddUp(rows: seq<OrderItemRow>)
    ensures forall k :: 0 <= k < |rows| ==> DisplayedSubtotals(rows)[k] == rows[k].price * rows[k].quantity
    ensures Sum(DisplayedSubtotals(rows)) == RowsTotal(rows)
  {
    if rows != [] {
      DisplayedSubtotalsAddUp(rows[1..]);
    }
  }

  /** What the page renders: a loading notice, "Order Not Found", or the order. */
  datatype View = LoadingView | NotFoundView | OrderView(order: OrderRecord)

  function PageView(loading: bool, order: Option<OrderRecord>): (v: View)
    ensures v.OrderView? <==> !loading && order.Some?
    ensures v.OrderView? ==> v.order == order.value
    ensures loading ==> v.LoadingView?
    ensures !loading && order.None? ==> v.NotFoundView?
  {
    if loading then LoadingView else if order.None? then NotFoundView else OrderView(order.value)
  }

  /** The cached order after a series of notifications, each replacing the previous snapshot. */
  function AfterUpdates(current: Option<OrderRecord>, updates: seq<OrderRecord>): Option<OrderRecord>
    decreases |updates|
  {
    if updates == [] then current else AfterUpdates(Some(updates[0]), updates[1..])
  }

  /** Last writer wins: after any non-empty series of notifications the cache holds the last one
      delivered, whatever it held before and whatever the order of the statuses. */
  lemma {:induction false} LastWriterWins(current: Option<OrderRecord>, updates: seq<OrderRecord>)
    ensures updates == [] ==> AfterUpdates(current, updates) == current
    ensures updates != [] ==> AfterUpdates(current, updates) == Some(updates[|updates| - 1])
    decreases |updates|
  {
    if |updates| > 1 {
      LastWriterWins(Some(updates[0]), updates[1..]);
    }
  }

  /** No regression guard: statuses delivered as pending, preparing, confirmed leave the page on
      confirmed, a step backwards. */
  lemma RegressiveUpdateIsShown(a: OrderRecord, b: OrderRecord, c: OrderRecord)
    requires a.status == "pending" && b.status == "preparing" && c.status == "confirmed"
    ensures AfterUpdates(None, [a, b, c]) == Some(c)
    ensures GetStatusInfo(AfterUpdates(None, [a, b, c]).value.status).text == "Confirmed"
  {
    LastWriterWins(None, [a, b, c]);
  }

  /** The tracking page's state. */
  class OrderTrackingPage {
    var order: Option<OrderRecord>
    var orderItems: seq<OrderItemRow>
    var loading: bool

    constructor ()
      ensures order == None && orderItems == [] && loading
    {
      order := None;
      orderItems := [];
      loading := true;
    }

    /** `fetchOrder`: the order and its items are stored only when both reads succeed
        (`itemsData || []` when the items come back null); loading ends either way. */
    method FetchOrder(orderRead: Result<OrderRecord>, itemsRead: Result<Option<seq<OrderItemRow>>>)
      modifies this
      ensures !loading
      ensures orderRead.Ok? && itemsRead.Ok? ==>
                order == Some(orderRead.value)
                && orderItems == (if itemsRead.value.Some? then itemsRead.value.value else [])
      ensures orderRead.Err? || itemsRead.Err? ==> order == old(order) && orderItems == old(orderItems)
    {
      if orderRead.Ok? && itemsRead.Ok? {
        order := Some(orderRead.value);
        orderItems := if itemsRead.value.Some? then itemsRead.value.value else [];
      }
      loading := false;
    }

    /** The change-notification callback: `setOrder(payload.new)`. */
    method OnUpdate(snapshot: OrderRecord)
      modifies this
      ensures order == Some(snapshot)
      ensures orderItems == old(orderItems) && loading == old(loading)
      ensures AfterUpdates(old(order), [snapshot]) == order
    {
      order := Some(snapshot);
    }
  }
}
