/**
 * The Polar payloads the webhook route receives (lib/polar/types.ts): the
 * subscription object, the payment object, and the closed union of the five
 * event types with an explicit fallback for any other type string.
 */
module PolarTypes {
  import opened Wrappers

  datatype PolarSubscriptionStatus =
    | Incomplete | IncompleteExpired | Trialing | Active | PastDue | Canceled | Unpaid

  /**
   * `PolarSubscription`, plus `customer_email`, which the created-handler
   * reads although the interface does not declare it.
   */
  datatype PolarSubscription = PolarSubscription(
    id: string,
    status: PolarSubscriptionStatus,
    customer_id: string,
    product_id: string,
    price_id: string,
    current_period_start: string,
    current_period_end: string,
    cancel_at_period_end: bool,
    canceled_at: Option<string>,
    ended_at: Option<string>,
    trial_start: Option<string>,
    trial_end: Option<string>,
    metadata: Option<map<string, string>>,
    customer_email: Option<string>)

  /** The `data` of `payment.succeeded` and `payment.failed` (the latter may carry an error message). */
  datatype PaymentData = PaymentData(
    id: string,
    amount: int,
    currency: string,
    customer_id: string,
    subscription_id: Option<string>,
    error_message: Option<string>)

  /** The five event `type` strings the route has a handler for. */
  const KnownTypeNames: set<string> :=
    {"subscription.created", "subscription.updated", "subscription.canceled", "payment.succeeded", "payment.failed"}

  /** Any other event `type` string. */
  type OtherTypeName = t: string | t !in KnownTypeNames witness ""

  /**
   * The `type`-tagged `data` of an event. An event of a known type always
   * carries that type's data, so `Unrecognized` holds only the other names.
   */
  datatype EventData =
    | SubscriptionCreated(subscription: PolarSubscription)
    | SubscriptionUpdated(subscription: PolarSubscription)
    | SubscriptionCanceled(subscription: PolarSubscription)
    | PaymentSucceeded(payment: PaymentData)
    | PaymentFailed(payment: PaymentData)
    | Unrecognized(typeName: OtherTypeName)

  /** `PolarWebhookEvent`: the common fields and the tagged data. */
  datatype PolarWebhookEvent = PolarWebhookEvent(id: string, created_at: string, data: EventData)

  /** The event's `type` string: one of the five known names exactly when the event has a handler. */
  function EventType(event: PolarWebhookEvent): (t: string)
    ensures t in KnownTypeNames <==> !event.data.Unrecognized?
    ensures event.data.SubscriptionCreated? <==> t == "subscription.created"
    ensures event.data.SubscriptionUpdated? <==> t == "subscription.updated"
    ensures event.data.SubscriptionCanceled? <==> t == "subscription.canceled"
    ensures event.data.PaymentSucceeded? <==> t == "payment.succeeded"
    ensures event.data.PaymentFailed? <==> t == "payment.failed"
    ensures event.data.Unrecognized? ==> t == event.data.typeName
  {
    match event.data
    case SubscriptionCreated(_) => "subscription.created"
    case SubscriptionUpdated(_) => "subscription.updated"
    case SubscriptionCanceled(_) => "subscription.canceled"
    case PaymentSucceeded(_) => "payment.succeeded"
    case PaymentFailed(_) => "payment.failed"
    case Unrecognized(t) => t
  }
}
