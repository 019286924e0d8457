/**
 * The Polar webhook endpoint (app/api/webhooks/polar/route.ts): signature
 * check, parse, de-duplication on the event id, persisting the event,
 * dispatch to one of five handlers, and marking the event processed.
 *
 * `Deliver` states what one request does to the tables and what it answers;
 * `Post` performs the same steps one store write at a time on a `Store`.
 */
module WebhookRoute {
  import opened Wrappers
  import opened Tables
  import opened PolarTypes
  import opened Database
  import Utils
  import PolarWebhooks

  // ---------------------------------------------------------------------------
  // The request and what the route depends on
  // ---------------------------------------------------------------------------

  /** The raw body and the headers of an incoming delivery. */
  datatype Request = Request(rawBody: string, headers: PolarWebhooks.Headers)

  /** What `JSON.parse` yields: a falsy value (null, false, 0, "") or an event object. */
  datatype JsonPayload = Falsy | EventObject(event: PolarWebhookEvent)

  /**
   * The outcome of one store write: applied; refused, which the client
   * reports as `{ error }` and the code never inspects; or thrown.
   */
  datatype WriteOutcome = Applied | Refused | Throws

  /** The outcomes of the three writes a delivery can make. */
  datatype StoreFaults = StoreFaults(eventInsert: WriteOutcome, handlerWrite: WriteOutcome, markProcessed: WriteOutcome)

  /** `new Date()`: as an instant for `created_at`, and as `toISOString()` text. */
  datatype Clock = Clock(instant: Instant, iso: Timestamp)

  /**
   * Everything outside the request that the route consults: the environment,
   * HMAC-SHA256 as a hex digest, `JSON.parse`, the clock, the ids the
   * database assigns to new rows, and the outcomes of the store writes.
   */
  datatype Context = Context(
    env: Utils.Env,
    hmacHex: (string, string) -> string,
    jsonParse: string -> PolarWebhooks.JsonParse<JsonPayload>,
    clock: Clock,
    eventRowId: string,
    newSubscriptionId: string,
    faults: StoreFaults)

  /** The acknowledgement `{ received: true }`, with `duplicate: true` on a redelivery. */
  datatype Ack = Ack(received: bool, duplicate: bool)

  type RouteResponse = Utils.Response<Ack>

  function MissingSignature(): RouteResponse { Utils.CreateErrorResponse("Missing webhook signature", 401) }
  function InvalidSignature(): RouteResponse { Utils.CreateErrorResponse("Invalid webhook signature", 401) }
  function InvalidPayload(): RouteResponse { Utils.CreateErrorResponse("Invalid webhook payload", 400) }
  function InternalError(): RouteResponse { Utils.CreateErrorResponse("Internal server error", 500) }
  function Received(duplicate: bool): RouteResponse { Utils.CreateSuccessResponse(Ack(true, duplicate)) }

  // ---------------------------------------------------------------------------
  // Lookups the handlers make
  // ---------------------------------------------------------------------------


  /** The filter `.eq('email', email)`. */
  function HasEmail(email: string): (p: UserRow -> bool)
    ensures forall u :: p(u) == (u.email == email)
  {
    (u: UserRow) => u.email == email
  }

  /** The filter `.eq('polar_product_id', id)`. */
  function HasPolarProductId(polarProductId: string): (p: ProductRow -> bool)
    ensures forall product :: p(product) == (product.polar_product_id == Some(polarProductId))
  {
    (product: ProductRow) => product.polar_product_id == Some(polarProductId)
  }

  /** The filter `.eq('polar_subscription_id', id)`. */
  function HasPolarId(polarSubscriptionId: string): (p: SubscriptionRow -> bool)
    ensures forall row :: p(row) == (row.polar_subscription_id == Some(polarSubscriptionId))
  {
    (row: SubscriptionRow) => row.polar_subscription_id == Some(polarSubscriptionId)
  }

  /**
   * `users.select('id').eq('email', customer_email).single()`. An absent
   * email is taken to find no user.
   */
  function UserByEmail(users: seq<UserRow>, email: Option<string>): Option<UserRow> {
    match email
    case None => None
    case Some(e) => Single(users, HasEmail(e))
  }

  /** `products.select('id').eq('polar_product_id', product_id).single()`. */
  function ProductByPolarId(products: seq<ProductRow>, polarProductId: string): Option<ProductRow> {
    Single(products, HasPolarProductId(polarProductId))
  }

  // ---------------------------------------------------------------------------
  // The five handlers, as functions of the subscriptions table
  // ---------------------------------------------------------------------------

  /** The row `handleSubscriptionCreated` inserts. */
  function CreatedRow(id: string, user: UserRow, product: Option<ProductRow>, data: PolarSubscription, now: Instant): SubscriptionRow {
    SubscriptionRow(
      id := id,
      user_id := user.id,
      product_id := if product.Some? then Some(product.value.id) else None,
      polar_subscription_id := Some(data.id),
      status := ToRowStatus(data.status),
      cancel_at_period_end := data.cancel_at_period_end,
      current_period_start := Some(data.current_period_start),
      current_period_end := Some(data.current_period_end),
      trial_start := data.trial_start,
      trial_end := data.trial_end,
      canceled_at := None,
      metadata := data.metadata.GetOr(map[]),
      created_at := now)
  }

  /**
   * `handleSubscriptionCreated`: no user with the customer's email, no write;
   * otherwise one plain insert (never an upsert), whose product is null when
   * no single product carries the Polar product id.
   */
  function AfterCreated(s: Snapshot, data: PolarSubscription, newId: string, now: Instant): (r: seq<SubscriptionRow>)
    ensures UserByEmail(s.users, data.customer_email).None? ==> r == s.subscriptions
    ensures UserByEmail(s.users, data.customer_email).Some? ==>
              var user := UserByEmail(s.users, data.customer_email).value;
              var product := ProductByPolarId(s.products, data.product_id);
              && |r| == |s.subscriptions| + 1
              && r[..|s.subscriptions|] == s.subscriptions
              && r[|s.subscriptions|].id == newId
              && r[|s.subscriptions|].user_id == user.id
              && user in s.users && user.email == data.customer_email.value
              && (product.None? <==> r[|s.subscriptions|].product_id.None?)
              && (product.Some? ==> product.value in s.products && r[|s.subscriptions|].product_id == Some(product.value.id))
              && r[|s.subscriptions|].polar_subscription_id == Some(data.id)
              && r[|s.subscriptions|].status == ToRowStatus(data.status)
              && r[|s.subscriptions|].current_period_start == Some(data.current_period_start)
              && r[|s.subscriptions|].current_period_end == Some(data.current_period_end)
              && r[|s.subscriptions|].cancel_at_period_end == data.cancel_at_period_end
              && r[|s.subscriptions|].trial_start == data.trial_start
              && r[|s.subscriptions|].trial_end == data.trial_end
              && r[|s.subscriptions|].metadata == data.metadata.GetOr(map[])
              && r[|s.subscriptions|].canceled_at.None?
              && r[|s.subscriptions|].created_at == now
  {
    match UserByEmail(s.users, data.customer_email)
    case None => s.subscriptions
    case Some(user) =>
      s.subscriptions + [CreatedRow(newId, user, ProductByPolarId(s.products, data.product_id), data, now)]
  }

  /** The columns `handleSubscriptionUpdated` overwrites. */
  function WithUpdate(data: PolarSubscription): (f: SubscriptionRow -> SubscriptionRow)
    ensures forall row :: f(row) == row.(
      status := ToRowStatus(data.status),
      current_period_start := Some(data.current_period_start),
      current_period_end := Some(data.current_period_end),
      cancel_at_period_end := data.cancel_at_period_end,
      metadata := data.metadata.GetOr(map[]))
  {
    (row: SubscriptionRow) => row.(
      status := ToRowStatus(data.status),
      current_period_start := Some(data.current_period_start),
      current_period_end := Some(data.current_period_end),
      cancel_at_period_end := data.cancel_at_period_end,
      metadata := data.metadata.GetOr(map[]))
  }

  /**
   * `handleSubscriptionUpdated`: rows with the subscription's Polar id take
   * its status, period bounds, cancel flag and metadata (`{}` when absent);
   * nothing else in them and no other row changes.
   */
  function AfterUpdated(subscriptions: seq<SubscriptionRow>, data: PolarSubscription): (r: seq<SubscriptionRow>)
    ensures |r| == |subscriptions|
    ensures forall i :: 0 <= i < |r| && subscriptions[i].polar_subscription_id != Some(data.id) ==> r[i] == subscriptions[i]
    ensures forall i :: 0 <= i < |r| && subscriptions[i].polar_subscription_id == Some(data.id) ==>
              && r[i].status == ToRowStatus(data.status)
              && r[i].current_period_start == Some(data.current_period_start)
              && r[i].current_period_end == Some(data.current_period_end)
              && r[i].cancel_at_period_end == data.cancel_at_period_end
              && r[i].metadata == data.metadata.GetOr(map[])
              && r[i] == subscriptions[i].(status := r[i].status,
                                           current_period_start := r[i].current_period_start,
                                           current_period_end := r[i].current_period_end,
                                           cancel_at_period_end := r[i].cancel_at_period_end,
                                           metadata := r[i].metadata)
  {
    UpdateWhere(subscriptions, HasPolarId(data.id), WithUpdate(data))
  }

  /** `subscription.canceled_at || new Date().toISOString()`. */
  function CanceledAt(data: PolarSubscription, clock: Clock): Timestamp {
    match data.canceled_at
    case Some(t) => if t != "" then t else clock.iso
    case None => clock.iso
  }

  function WithCancellation(canceledAt: Timestamp): (f: SubscriptionRow -> SubscriptionRow)
    ensures forall row :: f(row) == row.(status := SubscriptionStatus.Canceled, canceled_at := Some(canceledAt), cancel_at_period_end := false)
  {
    (row: SubscriptionRow) => row.(status := SubscriptionStatus.Canceled, canceled_at := Some(canceledAt), cancel_at_period_end := false)
  }

  /**
   * `handleSubscriptionCanceled`: rows with the Polar id become `canceled`,
   * lose the cancel-at-period-end flag and get a cancellation time (the
   * payload's, or now); nothing else changes.
   */
  function AfterCanceled(subscriptions: seq<SubscriptionRow>, data: PolarSubscription, clock: Clock): (r: seq<SubscriptionRow>)
    ensures |r| == |subscriptions|
    ensures forall i :: 0 <= i < |r| && subscriptions[i].polar_subscription_id != Some(data.id) ==> r[i] == subscriptions[i]
    ensures forall i :: 0 <= i < |r| && subscriptions[i].polar_subscription_id == Some(data.id) ==>
              && r[i].status == SubscriptionStatus.Canceled
              && !r[i].cancel_at_period_end
              && r[i].canceled_at.Some?
              && (data.canceled_at.Some? && data.canceled_at.value != "" ==> r[i].canceled_at == data.canceled_at)
              && (!(data.canceled_at.Some? && data.canceled_at.value != "") ==> r[i].canceled_at == Some(clock.iso))
              && r[i] == subscriptions[i].(status := SubscriptionStatus.Canceled, canceled_at := r[i].canceled_at, cancel_at_period_end := false)
  {
    UpdateWhere(subscriptions, HasPolarId(data.id), WithCancellation(CanceledAt(data, clock)))
  }

  /** `if (payment.subscription_id)`: present and not the empty string. */
  predicate ForSubscription(payment: PaymentData) {
    payment.subscription_id.Some? && payment.subscription_id.value != ""
  }

  function WithStatus(status: SubscriptionStatus): (f: SubscriptionRow -> SubscriptionRow)
    ensures forall row :: f(row) == row.(status := status)
  {
    (row: SubscriptionRow) => row.(status := status)
  }

  /**
   * `handlePaymentSucceeded` / `handlePaymentFailed`: when the payment names
   * a subscription, rows with that Polar id take the new status and nothing
   * else; a payment without a subscription changes nothing.
   */
  function AfterPayment(subscriptions: seq<SubscriptionRow>, payment: PaymentData, status: SubscriptionStatus): (r: seq<SubscriptionRow>)
    ensures |r| == |subscriptions|
    ensures !ForSubscription(payment) ==> r == subscriptions
    ensures forall i :: 0 <= i < |r| ==>
              r[i] == if ForSubscription(payment) && subscriptions[i].polar_subscription_id == payment.subscription_id
                      then subscriptions[i].(status := status) else subscriptions[i]
  {
    if ForSubscription(payment) then UpdateWhere(subscriptions, HasPolarId(payment.subscription_id.value), WithStatus(status))
    else subscriptions
  }

  /** `processWebhookEvent`: the subscriptions table after the handler for the event's type. */
  function AfterEvent(s: Snapshot, event: PolarWebhookEvent, ctx: Context): seq<SubscriptionRow> {
    match event.data
    case SubscriptionCreated(data) => AfterCreated(s, data, ctx.newSubscriptionId, ctx.clock.instant)
    case SubscriptionUpdated(data) => AfterUpdated(s.subscriptions, data)
    case SubscriptionCanceled(data) => AfterCanceled(s.subscriptions, data, ctx.clock)
    case PaymentSucceeded(payment) => AfterPayment(s.subscriptions, payment, SubscriptionStatus.Active)
    case PaymentFailed(payment) => AfterPayment(s.subscriptions, payment, SubscriptionStatus.PastDue)
    case Unrecognized(_) => s.subscriptions
  }

  /**
   * Whether the handler awaits the store at all, and so can throw: every
   * subscription handler does, a payment handler only for a subscription
   * payment, the default branch never.
   */
  predicate TouchesStore(event: PolarWebhookEvent) {
    match event.data
    case PaymentSucceeded(payment) => ForSubscription(payment)
    case PaymentFailed(payment) => ForSubscription(payment)
    case Unrecognized(_) => false
    case _ => true
  }

  // ---------------------------------------------------------------------------
  // One delivery
  // ---------------------------------------------------------------------------

  /** The body parsed and found truthy, as `parseWebhookPayload` and `if (!event)` decide. */
  function Decode(rawBody: string, jsonParse: string -> PolarWebhooks.JsonParse<JsonPayload>): Option<PolarWebhookEvent> {
    var parsed: Option<JsonPayload> := PolarWebhooks.ParseWebhookPayload(rawBody, jsonParse);
    match parsed
    case None => None
    case Some(Falsy) => None
    case Some(EventObject(event)) => Some(event)
  }

  /** The row stored before dispatch: unprocessed, no processing time, no error. */
  function NewEventRow(rowId: string, event: PolarWebhookEvent, now: Instant): WebhookEventRow {
    WebhookEventRow(rowId, event.id, EventType(event), event, false, None, None, now)
  }

  /** `update({ processed: true, processed_at }).eq('event_id', id)`. */
  function MarkProcessed(events: seq<WebhookEventRow>, eventId: string, at: Timestamp): (r: seq<WebhookEventRow>)
    ensures |r| == |events|
    ensures forall i :: 0 <= i < |r| ==>
              r[i] == if events[i].event_id == eventId then events[i].(processed := true, processed_at := Some(at)) else events[i]
  {
    UpdateWhere(events, HasEventId(eventId), (e: WebhookEventRow) => e.(processed := true, processed_at := Some(at)))
  }

  /** Whether a delivery passes the signature check. */
  predicate Authentic(req: Request, ctx: Context) {
    var signature := PolarWebhooks.ExtractWebhookSignature(req.headers);
    PolarWebhooks.IsPresent(signature) &&
    PolarWebhooks.VerifyWebhookSignature(req.rawBody, signature.value, ctx.env, ctx.hmacHex)
  }

  /** Whether an event id already has a row, as the de-duplication query finds it. */
  predicate AlreadyStored(events: seq<WebhookEventRow>, eventId: string) {
    Single(events, HasEventId(eventId)).Some?
  }

  /** Steps 4 to 6 of `POST` for an event not stored before: record it, dispatch it, mark it processed. */
  function Process(s: Snapshot, event: PolarWebhookEvent, ctx: Context): (r: (Snapshot, RouteResponse))
    ensures r.0.users == s.users && r.0.products == s.products
    ensures ctx.faults.eventInsert == Throws ==> r.0 == s
    ensures r.1 == Received(false) || r.1 == InternalError()
    ensures r.1 == Received(false) <==>
              && ctx.faults.eventInsert != Throws
              && !(TouchesStore(event) && ctx.faults.handlerWrite == Throws)
              && ctx.faults.markProcessed != Throws
  {
    if ctx.faults.eventInsert == Throws then (s, InternalError())
    else
      var events := if ctx.faults.eventInsert == Applied
                    then s.webhookEvents + [NewEventRow(ctx.eventRowId, event, ctx.clock.instant)]
                    else s.webhookEvents;
      if TouchesStore(event) && ctx.faults.handlerWrite == Throws then (s.(webhookEvents := events), InternalError())
      else
        var subscriptions := if ctx.faults.handlerWrite == Applied then AfterEvent(s, event, ctx) else s.subscriptions;
        match ctx.faults.markProcessed
        case Throws => (s.(webhookEvents := events, subscriptions := subscriptions), InternalError())
        case Refused => (s.(webhookEvents := events, subscriptions := subscriptions), Received(false))
        case Applied =>
          (s.(webhookEvents := MarkProcessed(events, event.id, ctx.clock.iso), subscriptions := subscriptions), Received(false))
  }

  /** `POST`: the tables after one delivery, and the response. */
  function Deliver(s: Snapshot, req: Request, ctx: Context): (r: (Snapshot, RouteResponse))
    ensures r.1.status == 401 <==> !Authentic(req, ctx)
    ensures r.1 == InvalidPayload() <==> Authentic(req, ctx) && Decode(req.rawBody, ctx.jsonParse).None?
    ensures r.0 != s ==>
              && Authentic(req, ctx)
              && Decode(req.rawBody, ctx.jsonParse).Some?
              && !AlreadyStored(s.webhookEvents, Decode(req.rawBody, ctx.jsonParse).value.id)
  {
    var signature := PolarWebhooks.ExtractWebhookSignature(req.headers);
    if !PolarWebhooks.IsPresent(signature) then (s, MissingSignature())
    else if !PolarWebhooks.VerifyWebhookSignature(req.rawBody, signature.value, ctx.env, ctx.hmacHex) then (s, InvalidSignature())
    else match Decode(req.rawBody, ctx.jsonParse)
    case None => (s, InvalidPayload())
    case Some(event) =>
      if AlreadyStored(s.webhookEvents, event.id) then (s, Received(true))
      else Process(s, event, ctx)
  }

  // ---------------------------------------------------------------------------
  // What a delivery guarantees
  // ---------------------------------------------------------------------------

  /**
   * A missing or empty signature and a wrong one are both answered 401
   * before the body is parsed: the store is untouched and the answer does
   * not depend on the parser at all.
   */
  lemma UnauthenticRejectedBeforeParsing(s: Snapshot, req: Request, ctx: Context,
                                         otherParse: string -> PolarWebhooks.JsonParse<JsonPayload>)
    requires !Authentic(req, ctx)
    ensures Deliver(s, req, ctx).0 == s
    ensures Deliver(s, req, ctx).1.status == 401
    ensures Deliver(s, req, ctx).1 ==
              if PolarWebhooks.IsPresent(PolarWebhooks.ExtractWebhookSignature(req.headers))
              then InvalidSignature() else MissingSignature()
    ensures Deliver(s, req, ctx.(jsonParse := otherParse)) == Deliver(s, req, ctx)
  {
  }

  /** An authentic body that does not parse to an event is answered 400 and writes nothing. */
  lemma UnparseableWritesNothing(s: Snapshot, req: Request, ctx: Context)
    requires Authentic(req, ctx)
    requires Decode(req.rawBody, ctx.jsonParse).None?
    ensures Deliver(s, req, ctx) == (s, InvalidPayload())
  {
  }

  /**
   * An event whose id already has a row is acknowledged as a duplicate and
   * changes no table, whatever the row's `processed` flag says.
   */
  lemma DuplicateChangesNothing(s: Snapshot, req: Request, ctx: Context, i: nat)
    requires KeysHold(s)
    requires Authentic(req, ctx)
    requires Decode(req.rawBody, ctx.jsonParse).Some?
    requires i < |s.webhookEvents| && s.webhookEvents[i].event_id == Decode(req.rawBody, ctx.jsonParse).value.id
    ensures Deliver(s, req, ctx) == (s, Received(true))
  {
    SingleWithinUniqueKey(s.webhookEvents, EventIdOf, s.webhookEvents[i].event_id, HasEventId(s.webhookEvents[i].event_id));
  }

  /** No row has this event id. */
  predicate Unseen(events: seq<WebhookEventRow>, eventId: string) {
    forall i :: 0 <= i < |events| ==> events[i].event_id != eventId
  }

  /**
   * A fresh event, with every write succeeding, adds exactly one event row,
   * marked processed at the clock's time, and leaves the subscriptions as
   * the event's handler makes them; an unrecognised type changes no
   * subscription and is still marked processed.
   */
  lemma FreshEventProcessed(s: Snapshot, req: Request, ctx: Context)
    requires KeysHold(s)
    requires Authentic(req, ctx)
    requires Decode(req.rawBody, ctx.jsonParse).Some?
    requires Unseen(s.webhookEvents, Decode(req.rawBody, ctx.jsonParse).value.id)
    requires ctx.faults == StoreFaults(Applied, Applied, Applied)
    ensures var event := Decode(req.rawBody, ctx.jsonParse).value;
            var (t, response) := Deliver(s, req, ctx);
            && response == Received(false)
            && t.webhookEvents == s.webhookEvents +
                 [NewEventRow(ctx.eventRowId, event, ctx.clock.instant).(processed := true, processed_at := Some(ctx.clock.iso))]
            && t.subscriptions == AfterEvent(s, event, ctx)
            && (event.data.Unrecognized? ==> t.subscriptions == s.subscriptions)
            && t.users == s.users && t.products == s.products
  {
    var event := Decode(req.rawBody, ctx.jsonParse).value;
    SingleWithinUniqueKey(s.webhookEvents, EventIdOf, event.id, HasEventId(event.id));
    var stored := s.webhookEvents + [NewEventRow(ctx.eventRowId, event, ctx.clock.instant)];
    var marked := MarkProcessed(stored, event.id, ctx.clock.iso);
    assert marked == s.webhookEvents +
             [NewEventRow(ctx.eventRowId, event, ctx.clock.instant).(processed := true, processed_at := Some(ctx.clock.iso))] by {
      assert forall k :: 0 <= k < |s.webhookEvents| ==> marked[k] == s.webhookEvents[k];
    }
  }

  /**
   * When the handler throws, the answer is 500 and the event row stays as
   * inserted, unprocessed; the subscriptions are untouched.
   */
  lemma HandlerFailureLeavesEventUnprocessed(s: Snapshot, req: Request, ctx: Context)
    requires Authentic(req, ctx)
    requires Decode(req.rawBody, ctx.jsonParse).Some?
    requires !AlreadyStored(s.webhookEvents, Decode(req.rawBody, ctx.jsonParse).value.id)
    requires ctx.faults.eventInsert == Applied && ctx.faults.handlerWrite == Throws
    requires TouchesStore(Decode(req.rawBody, ctx.jsonParse).value)
    ensures var event := Decode(req.rawBody, ctx.jsonParse).value;
            Deliver(s, req, ctx) ==
              (s.(webhookEvents := s.webhookEvents + [NewEventRow(ctx.eventRowId, event, ctx.clock.instant)]), InternalError())
    ensures !Deliver(s, req, ctx).0.webhookEvents[|s.webhookEvents|].processed
  {
  }

  /**
   * A delivery whose handler failed is never processed again: the provider's
   * redelivery of the same request finds the unprocessed row, is told
   * "duplicate", and changes nothing, whatever the store does this time.
   */
  lemma FailedDeliveryIsNeverRetried(s: Snapshot, req: Request, ctx: Context, retry: StoreFaults, clock: Clock, ids: (string, string))
    requires KeysHold(s)
    requires Authentic(req, ctx)
    requires Decode(req.rawBody, ctx.jsonParse).Some?
    requires !AlreadyStored(s.webhookEvents, Decode(req.rawBody, ctx.jsonParse).value.id)
    requires ctx.faults.eventInsert == Applied && ctx.faults.handlerWrite == Throws
    requires TouchesStore(Decode(req.rawBody, ctx.jsonParse).value)
    ensures var first := Deliver(s, req, ctx);
            var redelivery := ctx.(faults := retry, clock := clock, eventRowId := ids.0, newSubscriptionId := ids.1);
            && first.1 == InternalError()
            && Deliver(first.0, req, redelivery) == (first.0, Received(true))
  {
    var event := Decode(req.rawBody, ctx.jsonParse).value;
    var t := Deliver(s, req, ctx).0;
    SingleWithinUniqueKey(s.webhookEvents, EventIdOf, event.id, HasEventId(event.id));
    HandlerFailureLeavesEventUnprocessed(s, req, ctx);
    AppendKeepsEventIdsUnique(s.webhookEvents, NewEventRow(ctx.eventRowId, event, ctx.clock.instant));
    DuplicateChangesNothing(t, req, ctx.(faults := retry, clock := clock, eventRowId := ids.0, newSubscriptionId := ids.1), |s.webhookEvents|);
  }

  lemma AppendKeepsEventIdsUnique(events: seq<WebhookEventRow>, row: WebhookEventRow)
    requires KeyUnique(events, EventIdOf)
    requires Unseen(events, row.event_id)
    ensures KeyUnique(events + [row], EventIdOf)
  {
    var t := events + [row];
    forall i, j | 0 <= i < j < |t| ensures EventIdOf(t[i]) != EventIdOf(t[j]) {
      if j < |events| {
        assert t[i] == events[i] && t[j] == events[j];
      } else {
        assert t[i] == events[i];
      }
    }
  }

  /** Rows rewritten in place under their own ids keep the ids unique. */
  lemma SameIdsKeepKeys(before: seq<SubscriptionRow>, after: seq<SubscriptionRow>)
    requires KeyUnique(before, SubscriptionIdOf)
    requires |after| == |before|
    requires forall k :: 0 <= k < |after| ==> after[k].id == before[k].id
    ensures KeyUnique(after, SubscriptionIdOf)
  {
    forall i, j | 0 <= i < j < |after| ensures SubscriptionIdOf(after[i]) != SubscriptionIdOf(after[j]) {
      assert SubscriptionIdOf(before[i]) != SubscriptionIdOf(before[j]);
    }
  }

  /** One row appended under a fresh id keeps the ids unique. */
  lemma AppendFreshKeepsKeys(before: seq<SubscriptionRow>, after: seq<SubscriptionRow>, newId: string)
    requires KeyUnique(before, SubscriptionIdOf)
    requires FreshSubscriptionId(before, newId)
    requires |after| == |before| + 1 && after[..|before|] == before && after[|before|].id == newId
    ensures KeyUnique(after, SubscriptionIdOf)
  {
    var n := |before|;
    forall i, j | 0 <= i < j < |after| ensures SubscriptionIdOf(after[i]) != SubscriptionIdOf(after[j]) {
      assert after[i] == before[i];
      if j < n {
        assert after[j] == before[j];
      }
    }
  }

  /** The handlers never change a row's id and add rows only under a fresh id. */
  lemma AfterEventKeepsIds(s: Snapshot, event: PolarWebhookEvent, ctx: Context)
    requires KeyUnique(s.subscriptions, SubscriptionIdOf)
    requires FreshSubscriptionId(s.subscriptions, ctx.newSubscriptionId)
    ensures KeyUnique(AfterEvent(s, event, ctx), SubscriptionIdOf)
  {
    var r := AfterEvent(s, event, ctx);
    match event.data
    case SubscriptionCreated(data) =>
      if UserByEmail(s.users, data.customer_email).Some? {
        AppendFreshKeepsKeys(s.subscriptions, r, ctx.newSubscriptionId);
      }
    case SubscriptionUpdated(data) =>
      SameIdsKeepKeys(s.subscriptions, r);
    case SubscriptionCanceled(data) =>
      SameIdsKeepKeys(s.subscriptions, r);
    case PaymentSucceeded(payment) =>
      SameIdsKeepKeys(s.subscriptions, r);
    case PaymentFailed(payment) =>
      SameIdsKeepKeys(s.subscriptions, r);
    case Unrecognized(_) =>
  }

  /** Marking events processed changes no event id. */
  lemma MarkProcessedKeepsKeys(events: seq<WebhookEventRow>, eventId: string, at: Timestamp)
    requires KeyUnique(events, EventIdOf)
    ensures KeyUnique(MarkProcessed(events, eventId, at), EventIdOf)
  {
    var marked := MarkProcessed(events, eventId, at);
    forall i, j | 0 <= i < j < |marked| ensures EventIdOf(marked[i]) != EventIdOf(marked[j]) {
      assert EventIdOf(events[i]) != EventIdOf(events[j]);
    }
  }

  /**
   * Sequential deliveries keep event ids unique without any database
   * constraint, keep subscription ids unique, and never write users or
   * products.
   */
  lemma DeliverKeepsKeys(s: Snapshot, req: Request, ctx: Context)
    requires KeysHold(s)
    requires FreshSubscriptionId(s.subscriptions, ctx.newSubscriptionId)
    ensures KeysHold(Deliver(s, req, ctx).0)
    ensures Deliver(s, req, ctx).0.users == s.users && Deliver(s, req, ctx).0.products == s.products
  {
    if Authentic(req, ctx) && Decode(req.rawBody, ctx.jsonParse).Some? {
      var event := Decode(req.rawBody, ctx.jsonParse).value;
      if !AlreadyStored(s.webhookEvents, event.id) {
        SingleWithinUniqueKey(s.webhookEvents, EventIdOf, event.id, HasEventId(event.id));
        ProcessKeepsKeys(s, event, ctx);
      }
    }
  }

  /** Recording and handling an unseen event keeps both keys. */
  lemma ProcessKeepsKeys(s: Snapshot, event: PolarWebhookEvent, ctx: Context)
    requires KeysHold(s)
    requires FreshSubscriptionId(s.subscriptions, ctx.newSubscriptionId)
    requires Unseen(s.webhookEvents, event.id)
    ensures KeysHold(Process(s, event, ctx).0)
    ensures Process(s, event, ctx).0.users == s.users && Process(s, event, ctx).0.products == s.products
  {
    if ctx.faults.eventInsert != Throws {
      var events := if ctx.faults.eventInsert == Applied
                    then s.webhookEvents + [NewEventRow(ctx.eventRowId, event, ctx.clock.instant)]
                    else s.webhookEvents;
      if ctx.faults.eventInsert == Applied {
        AppendKeepsEventIdsUnique(s.webhookEvents, NewEventRow(ctx.eventRowId, event, ctx.clock.instant));
      }
      MarkProcessedKeepsKeys(events, event.id, ctx.clock.iso);
      AfterEventKeepsIds(s, event, ctx);
    }
  }

  // ---------------------------------------------------------------------------
  // The route, one store write at a time
  // ---------------------------------------------------------------------------

  /** `handleSubscriptionCreated`. A throw comes from its first await, before any write. */
  method HandleSubscriptionCreated(db: Store, data: PolarSubscription, newId: string, now: Instant, write: WriteOutcome)
    returns (threw: bool)
    modifies db`subscriptions
    ensures threw <==> write == Throws
    ensures db.subscriptions == if write == Applied then AfterCreated(old(db.Snap()), data, newId, now) else old(db.subscriptions)
  {
    if write == Throws {
      return true;
    }
    var user := UserByEmail(db.users, data.customer_email);
    if user.None? {
      // "User not found for email": the event is skipped
      return false;
    }
    var product := ProductByPolarId(db.products, data.product_id);
    if write == Applied {
      db.subscriptions := db.subscriptions + [CreatedRow(newId, user.value, product, data, now)];
    }
    return false;
  }

  /** `handleSubscriptionUpdated`. */
  method HandleSubscriptionUpdated(db: Store, data: PolarSubscription, write: WriteOutcome) returns (threw: bool)
    modifies db`subscriptions
    ensures threw <==> write == Throws
    ensures db.subscriptions == if write == Applied then AfterUpdated(old(db.subscriptions), data) else old(db.subscriptions)
  {
    threw := write == Throws;
    if write == Applied {
      db.subscriptions := UpdateWhere(db.subscriptions, HasPolarId(data.id), WithUpdate(data));
    }
  }

  /** `handleSubscriptionCanceled`. */
  method HandleSubscriptionCanceled(db: Store, data: PolarSubscription, clock: Clock, write: WriteOutcome) returns (threw: bool)
    modifies db`subscriptions
    ensures threw <==> write == Throws
    ensures db.subscriptions == if write == Applied then AfterCanceled(old(db.subscriptions), data, clock) else old(db.subscriptions)
  {
    threw := write == Throws;
    if write == Applied {
      db.subscriptions := UpdateWhere(db.subscriptions, HasPolarId(data.id), WithCancellation(CanceledAt(data, clock)));
    }
  }

  /** `handlePaymentSucceeded`: a subscription payment makes the subscription active. */
  method HandlePaymentSucceeded(db: Store, payment: PaymentData, write: WriteOutcome) returns (threw: bool)
    modifies db`subscriptions
    ensures threw <==> ForSubscription(payment) && write == Throws
    ensures db.subscriptions ==
              if write == Applied then AfterPayment(old(db.subscriptions), payment, SubscriptionStatus.Active) else old(db.subscriptions)
  {
    threw := false;
    if ForSubscription(payment) {
      threw := write == Throws;
      if write == Applied {
        db.subscriptions := UpdateWhere(db.subscriptions, HasPolarId(payment.subscription_id.value), WithStatus(SubscriptionStatus.Active));
      }
    }
  }

  /** `handlePaymentFailed`: a subscription payment makes the subscription past due. */
  method HandlePaymentFailed(db: Store, payment: PaymentData, write: WriteOutcome) returns (threw: bool)
    modifies db`subscriptions
    ensures threw <==> ForSubscription(payment) && write == Throws
    ensures db.subscriptions ==
              if write == Applied then AfterPayment(old(db.subscriptions), payment, SubscriptionStatus.PastDue) else old(db.subscriptions)
  {
    threw := false;
    if ForSubscription(payment) {
      threw := write == Throws;
      if write == Applied {
        db.subscriptions := UpdateWhere(db.subscriptions, HasPolarId(payment.subscription_id.value), WithStatus(SubscriptionStatus.PastDue));
      }
    }
  }

  /** `processWebhookEvent`: dispatch on the event type; other types are only logged. */
  method ProcessWebhookEvent(db: Store, event: PolarWebhookEvent, ctx: Context) returns (threw: bool)
    modifies db`subscriptions
    ensures threw <==> TouchesStore(event) && ctx.faults.handlerWrite == Throws
    ensures db.subscriptions ==
              if !threw && ctx.faults.handlerWrite == Applied then AfterEvent(old(db.Snap()), event, ctx) else old(db.subscriptions)
  {
    var write := ctx.faults.handlerWrite;
    match event.data
    case SubscriptionCreated(data) =>
      threw := HandleSubscriptionCreated(db, data, ctx.newSubscriptionId, ctx.clock.instant, write);
    case SubscriptionUpdated(data) =>
      threw := HandleSubscriptionUpdated(db, data, write);
    case SubscriptionCanceled(data) =>
      threw := HandleSubscriptionCanceled(db, data, ctx.clock, write);
    case PaymentSucceeded(payment) =>
      threw := HandlePaymentSucceeded(db, payment, write);
    case PaymentFailed(payment) =>
      threw := HandlePaymentFailed(db, payment, write);
    case Unrecognized(_) =>
      // "Unhandled webhook event type"
      threw := false;
  }

  /** `POST`: the route's steps in order, each store write as it happens. */
  method Post(db: Store, req: Request, ctx: Context) returns (response: RouteResponse)
    requires db.Valid()
    requires FreshSubscriptionId(db.subscriptions, ctx.newSubscriptionId)
    modifies db
    ensures db.Valid()
    ensures (db.Snap(), response) == Deliver(old(db.Snap()), req, ctx)
  {
    DeliverKeepsKeys(db.Snap(), req, ctx);
    var signature := PolarWebhooks.ExtractWebhookSignature(req.headers);
    if !PolarWebhooks.IsPresent(signature) {
      return MissingSignature();
    }
    if !PolarWebhooks.VerifyWebhookSignature(req.rawBody, signature.value, ctx.env, ctx.hmacHex) {
      return InvalidSignature();
    }
    var event := Decode(req.rawBody, ctx.jsonParse);
    if event.None? {
      return InvalidPayload();
    }
    var existing := Single(db.webhookEvents, HasEventId(event.value.id));
    if existing.Some? {
      // "already processed"
      return Received(true);
    }
    response := Record(db, event.value, ctx);
  }

  /** The part of `POST` after de-duplication: insert the event, run its handler, mark it processed. */
  method Record(db: Store, event: PolarWebhookEvent, ctx: Context) returns (response: RouteResponse)
    modifies db
    ensures (db.Snap(), response) == Process(old(db.Snap()), event, ctx)
  {
    if ctx.faults.eventInsert == Throws {
      return InternalError();
    }
    if ctx.faults.eventInsert == Applied {
      db.webhookEvents := db.webhookEvents + [NewEventRow(ctx.eventRowId, event, ctx.clock.instant)];
    }
    var threw := ProcessWebhookEvent(db, event, ctx);
    if threw {
      return InternalError();
    }
    if ctx.faults.markProcessed == Throws {
      return InternalError();
    }
    if ctx.faults.markProcessed == Applied {
      db.webhookEvents := MarkProcessed(db.webhookEvents, event.id, ctx.clock.iso);
    }
    return Received(false);
  }
}
