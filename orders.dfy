/** The order history page: the status badge lookup, the payment badge and the pickup banner. */
module Orders {
  import opened Wrappers
  import opened Badges
  import OrderTracking

  /** The `variants` table of `getStatusBadge`. */
  const Variants: map<string, Badge> := map[
    "pending" := Badge(Some(Outline), None, "Pending"),
    "confirmed" := Badge(Some(Secondary), None, "Confirmed"),
    "preparing" := Badge(Some(DefaultVariant), None, "Preparing"),
    "ready" := Badge(None, Some("bg-success"), "Ready"),
    "completed" := Badge(None, Some("bg-success"), "Completed"),
    "cancelled" := Badge(Some(Destructive), None, "Cancelled")
  ]

  /** The property names every plain JavaScript object inherits from `Object.prototype`. */
  const ObjectPrototypeKeys: set<string> := {
    "constructor", "__proto__", "hasOwnProperty", "isPrototypeOf", "propertyIsEnumerable",
    "toString", "toLocaleString", "valueOf",
    "__defineGetter__", "__defineSetter__", "__lookupGetter__", "__lookupSetter__"
  }

  /** `variants[status] || variants.pending` as JavaScript evaluates it: an inherited property
      (a function, or `Object.prototype` itself) is truthy, so it is used as the badge config,
      and having no `text` it renders an empty badge. */
  function AsWrittenStatusBadge(status: string): Badge
  {
    if status in Variants then Variants[status]
    else if status in ObjectPrototypeKeys then Badge(None, None, "")
    else Variants["pending"]
  }

  /** A status spelled like an inherited property, "toString" for one, escapes the fallback. */
  lemma AsWrittenMissesFallback()
    ensures "toString" !in OrderTracking.KnownStatuses
    ensures AsWrittenStatusBadge("toString").text == ""
    ensures StatusBadge("toString").text == "Pending"
  {
  }

  /** `getStatusBadge` as intended: an own entry of the table, otherwise the `pending` entry. */
  function StatusBadge(status: string): (b: Badge)
    ensures b in Variants.Values
  {
    if status in Variants then Variants[status] else Variants["pending"]
  }

  /** Each known status has its own text, and every other string falls back to the `pending`
      configuration. The two readings of the lookup agree except on inherited property names. */
  lemma StatusBadgeTexts(status: string)
    ensures status == "pending" ==> StatusBadge(status).text == "Pending"
    ensures status == "confirmed" ==> StatusBadge(status).text == "Confirmed"
    ensures status == "preparing" ==> StatusBadge(status).text == "Preparing"
    ensures status == "ready" ==> StatusBadge(status).text == "Ready"
    ensures status == "completed" ==> StatusBadge(status).text == "Completed"
    ensures status == "cancelled" ==> StatusBadge(status).text == "Cancelled"
    ensures status !in Variants ==> StatusBadge(status) == Variants["pending"]
    ensures status !in ObjectPrototypeKeys ==> AsWrittenStatusBadge(status) == StatusBadge(status)
  {
  }

  /** Both pages know the same six statuses, and the history badge's text is never empty. */
  lemma StatusTablesAgree(status: string)
    ensures status in Variants <==> status in OrderTracking.KnownStatuses
    ensures StatusBadge(status).text != ""
  {
  }

  /** The payment badge in the list: "Paid" for a successful payment, "Pending" for anything else. */
  function PaymentBadge(paymentStatus: string): (b: Badge)
    ensures b.text == "Paid" <==> paymentStatus == "success"
    ensures b.text == "Paid" || b.text == "Pending"
  {
    if paymentStatus == "success" then Badge(Some(DefaultVariant), None, "Paid")
    else Badge(Some(Outline), None, "Pending")
  }

  /** The list and the tracking page disagree on a failed payment: "Pending" here, "Payment
      Failed" there. */
  lemma FailedPaymentShownDifferently()
    ensures PaymentBadge("failed").text == "Pending"
    ensures OrderTracking.PaymentStatusBadge("failed").text == "Payment Failed"
  {
  }

  /** "Your order is ready for pickup!": shown when the status is exactly `ready`. */
  predicate ShowsReadyBanner(status: string)
  {
    status == "ready"
  }

  /** The banner, the history badge's "Ready" and the tracking page's "Ready for Pickup" all
      appear for the same single status. */
  lemma ReadyBannerAgrees(status: string)
    ensures ShowsReadyBanner(status) <==> StatusBadge(status).text == "Ready"
    ensures ShowsReadyBanner(status) <==> OrderTracking.GetStatusInfo(status).text == "Ready for Pickup"
  {
  }
}
