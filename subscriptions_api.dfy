/**
 * `GET /api/subscriptions` (app/api/subscriptions/route.ts): the caller's
 * subscriptions, newest first, each with the product it names.
 */
module SubscriptionsApi {
  import opened Wrappers
  import opened Tables
  import opened Actions
  import Utils

  /** The columns of the `products (...)` embed. */
  datatype ProductEmbed = ProductEmbed(
    id: string,
    name: string,
    description: Option<string>,
    price_amount: nat,
    interval: Interval,
    features: seq<string>)

  /** One element of the answer: every column of the subscription, plus `products`. */
  datatype Listed = Listed(subscription: SubscriptionRow, products: Option<ProductEmbed>)

  function Embed(p: ProductRow): ProductEmbed {
    ProductEmbed(p.id, p.name, p.description, p.price_amount, p.interval, p.features)
  }

  function ProductIdOf(p: ProductRow): string { p.id }

  /** The embedded product: the product row whose id the subscription names, or null. */
  function EmbedFor(products: seq<ProductRow>, row: SubscriptionRow): Option<ProductEmbed> {
    match Single(products, IsProduct(row.product_id))
    case None => None
    case Some(p) => Some(Embed(p))
  }

  /** With product ids unique, a subscription gets its product exactly when that product exists. */
  lemma EmbedFindsNamedProduct(products: seq<ProductRow>, row: SubscriptionRow)
    requires KeyUnique(products, ProductIdOf)
    ensures EmbedFor(products, row).Some? <==>
            row.product_id.Some? && exists i :: 0 <= i < |products| && products[i].id == row.product_id.value
    ensures EmbedFor(products, row).Some? ==>
            exists i :: 0 <= i < |products| && Some(products[i].id) == row.product_id && EmbedFor(products, row) == Some(Embed(products[i]))
  {
    if row.product_id.Some? {
      SingleWithinUniqueKey(products, ProductIdOf, row.product_id.value, IsProduct(row.product_id));
    }
    if EmbedFor(products, row).Some? {
      var p := Single(products, IsProduct(row.product_id)).value;
      var i :| 0 <= i < |products| && products[i] == p;
    }
  }

  /** `.eq('user_id', id).order('created_at', { ascending: false })`. */
  function CallerRows(subscriptions: seq<SubscriptionRow>, userId: string): seq<SubscriptionRow> {
    OrderByDesc(Where(subscriptions, HasOwner(userId)), CreatedAtOf)
  }

  /** The rows of the answer, in query order, each with its embed. */
  function Listing(subscriptions: seq<SubscriptionRow>, products: seq<ProductRow>, userId: string): (r: seq<Listed>)
    ensures |r| == |CallerRows(subscriptions, userId)|
    ensures forall k :: 0 <= k < |r| ==>
              r[k].subscription == CallerRows(subscriptions, userId)[k] && r[k].products == EmbedFor(products, r[k].subscription)
  {
    var rows := CallerRows(subscriptions, userId);
    seq(|rows|, k requires 0 <= k < |rows| => Listed(rows[k], EmbedFor(products, rows[k])))
  }

  /** Only the caller's rows are listed, each one a stored row. */
  lemma ListingOnlyCallersRows(subscriptions: seq<SubscriptionRow>, products: seq<ProductRow>, userId: string, k: nat)
    requires k < |Listing(subscriptions, products, userId)|
    ensures Listing(subscriptions, products, userId)[k].subscription in subscriptions
    ensures Listing(subscriptions, products, userId)[k].subscription.user_id == userId
  {
    var rows := CallerRows(subscriptions, userId);
    assert rows[k] in multiset(Where(subscriptions, HasOwner(userId)));
  }

  /** Every row of the caller is listed. */
  lemma ListingHasEveryCallerRow(subscriptions: seq<SubscriptionRow>, products: seq<ProductRow>, userId: string, i: nat)
    requires i < |subscriptions| && subscriptions[i].user_id == userId
    ensures exists k :: 0 <= k < |Listing(subscriptions, products, userId)| &&
                        Listing(subscriptions, products, userId)[k].subscription == subscriptions[i]
  {
    var rows := CallerRows(subscriptions, userId);
    assert subscriptions[i] in Where(subscriptions, HasOwner(userId));
    assert subscriptions[i] in multiset(rows);
    var k :| 0 <= k < |rows| && rows[k] == subscriptions[i];
    assert Listing(subscriptions, products, userId)[k].subscription == subscriptions[i];
  }

  /** The listing is newest first. */
  lemma ListingNewestFirst(subscriptions: seq<SubscriptionRow>, products: seq<ProductRow>, userId: string, j: nat, k: nat)
    requires j < k < |Listing(subscriptions, products, userId)|
    ensures Listing(subscriptions, products, userId)[j].subscription.created_at >=
            Listing(subscriptions, products, userId)[k].subscription.created_at
  {
    var rows := CallerRows(subscriptions, userId);
    assert CreatedAtOf(rows[j]) >= CreatedAtOf(rows[k]);
  }

  /** How `createClient()` and `auth.getUser()` ended. */
  datatype SessionOutcome = Session(auth: AuthLookup) | SessionThrew

  /** How the select ended: rows, an `{ error }` answer, or an exception. */
  datatype QueryOutcome = QueryOk | QueryError(message: string) | QueryThrew

  /** `GET`. */
  function Get(subscriptions: seq<SubscriptionRow>, products: seq<ProductRow>, session: SessionOutcome, query: QueryOutcome)
    : (r: Utils.Response<seq<Listed>>)
    ensures session.SessionThrew? ==> r == Utils.CreateErrorResponse("Internal server error", 500)
    ensures session.Session? && Caller(session.auth).None? ==> r == Utils.CreateErrorResponse("Unauthorized", 401)
    ensures session.Session? && Caller(session.auth).Some? ==>
              match query
              case QueryOk => r == Utils.CreateSuccessResponse(Listing(subscriptions, products, Caller(session.auth).value))
              case QueryError(message) => r == Utils.CreateErrorResponse(message, 500)
              case QueryThrew => r == Utils.CreateErrorResponse("Internal server error", 500)
    ensures r.status == 200 <==> r.body.DataBody?
  {
    match session
    case SessionThrew => Utils.CreateErrorResponse("Internal server error", 500)
    case Session(auth) =>
      match Caller(auth)
      case None => Utils.CreateErrorResponse("Unauthorized", 401)
      case Some(userId) =>
        match query
        case QueryOk => Utils.CreateSuccessResponse(Listing(subscriptions, products, userId))
        case QueryError(message) => Utils.CreateErrorResponse(message, 500)
        case QueryThrew => Utils.CreateErrorResponse("Internal server error", 500)
  }
}
