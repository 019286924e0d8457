/**
 * The database as the server code sees it through the supabase client: four
 * tables held as sequences of rows, updated in place by the webhook route and
 * the subscription actions.
 */
module Database {
  import opened Tables

  /** The contents of the four tables at one moment. */
  datatype Snapshot = Snapshot(
    users: seq<UserRow>,
    products: seq<ProductRow>,
    subscriptions: seq<SubscriptionRow>,
    webhookEvents: seq<WebhookEventRow>)

  /**
   * Row ids are primary keys. The event ids of webhook_events carry no
   * constraint visible in the code; the route keeps them unique itself.
   */
  ghost predicate KeysHold(s: Snapshot) {
    KeyUnique(s.subscriptions, SubscriptionIdOf) && KeyUnique(s.webhookEvents, EventIdOf)
  }

  /** An id the database may assign to a new subscription row. */
  predicate FreshSubscriptionId(subscriptions: seq<SubscriptionRow>, id: string) {
    forall i :: 0 <= i < |subscriptions| ==> subscriptions[i].id != id
  }

  class Store {
    var users: seq<UserRow>
    var products: seq<ProductRow>
    var subscriptions: seq<SubscriptionRow>
    var webhookEvents: seq<WebhookEventRow>

    function Snap(): Snapshot
      reads this
    {
      Snapshot(users, products, subscriptions, webhookEvents)
    }

    ghost predicate Valid()
      reads this
    {
      KeysHold(Snap())
    }

    constructor (s: Snapshot)
      requires KeysHold(s)
      ensures Snap() == s && Valid()
    {
      users, products, subscriptions, webhookEvents := s.users, s.products, s.subscriptions, s.webhookEvents;
    }
  }
}
