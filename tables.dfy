/**
 * The rows of the database tables the core touches (types/database.ts) and
 * the query forms the code issues against them: filter, `.single()`,
 * `.update(...).eq(...)` and `.order(...)`.
 */
module Tables {
  import opened Wrappers
  import PolarTypes

  /** ISO-8601 text, as the source stores timestamps. */
  type Timestamp = string

  /** A point in time, for the `created_at` columns the queries order by. */
  type Instant = int

  datatype SubscriptionStatus =
    | Active | Canceled | PastDue | Unpaid | Trialing | Incomplete | IncompleteExpired | Paused

  /** A Polar status is stored in the `status` column under the same name. */
  function ToRowStatus(s: PolarTypes.PolarSubscriptionStatus): SubscriptionStatus {
    match s
    case Incomplete => Incomplete
    case IncompleteExpired => IncompleteExpired
    case Trialing => Trialing
    case Active => Active
    case PastDue => PastDue
    case Canceled => Canceled
    case Unpaid => Unpaid
  }

  datatype Interval = Month | Year

  datatype UserRow = UserRow(
    id: string,
    email: string,
    full_name: Option<string>,
    avatar_url: Option<string>)

  datatype ProductRow = ProductRow(
    id: string,
    polar_product_id: Option<string>,
    name: string,
    description: Option<string>,
    price_amount: nat,
    interval: Interval,
    features: seq<string>,
    is_active: bool,
    metadata: map<string, string>,
    created_at: Instant)

  datatype SubscriptionRow = SubscriptionRow(
    id: string,
    user_id: string,
    product_id: Option<string>,
    polar_subscription_id: Option<string>,
    status: SubscriptionStatus,
    cancel_at_period_end: bool,
    current_period_start: Option<Timestamp>,
    current_period_end: Option<Timestamp>,
    trial_start: Option<Timestamp>,
    trial_end: Option<Timestamp>,
    canceled_at: Option<Timestamp>,
    metadata: map<string, string>,
    created_at: Instant)

  datatype WebhookEventRow = WebhookEventRow(
    id: string,
    event_id: string,
    event_type: string,
    payload: PolarTypes.PolarWebhookEvent,
    processed: bool,
    processed_at: Option<Timestamp>,
    error: Option<string>,
    created_at: Instant)

  // ---------------------------------------------------------------------------
  // Column accessors, as function values for the query forms below
  // ---------------------------------------------------------------------------

  function EventIdOf(e: WebhookEventRow): string { e.event_id }
  function SubscriptionIdOf(s: SubscriptionRow): string { s.id }
  function CreatedAtOf(s: SubscriptionRow): int { s.created_at }

  /** The filter `.eq('event_id', id)`. */
  function HasEventId(eventId: string): (p: WebhookEventRow -> bool)
    ensures forall e :: p(e) == (e.event_id == eventId)
  {
    (e: WebhookEventRow) => e.event_id == eventId
  }

  /** The filter `.eq('id', id)` on subscriptions. */
  function HasSubscriptionId(id: string): (p: SubscriptionRow -> bool)
    ensures forall row :: p(row) == (row.id == id)
  {
    (row: SubscriptionRow) => row.id == id
  }

  /** The filter `.eq('user_id', id)` on subscriptions. */
  function HasOwner(userId: string): (p: SubscriptionRow -> bool)
    ensures forall row :: p(row) == (row.user_id == userId)
  {
    (row: SubscriptionRow) => row.user_id == userId
  }

  /** The filter `.eq('id', id)` on users. */
  function IsUser(id: string): (p: UserRow -> bool)
    ensures forall u :: p(u) == (u.id == id)
  {
    (u: UserRow) => u.id == id
  }

  /** The join condition of a `products (...)` embed: the product whose id a subscription names. */
  function IsProduct(id: Option<string>): (p: ProductRow -> bool)
    ensures forall product :: p(product) == (id == Some(product.id))
  {
    (product: ProductRow) => id == Some(product.id)
  }

  // ---------------------------------------------------------------------------
  // Query forms
  // ---------------------------------------------------------------------------

  /** The rows that pass a filter, in table order. */
  function Where<T>(rows: seq<T>, p: T -> bool): (r: seq<T>)
    ensures |r| <= |rows|
    ensures forall k :: 0 <= k < |r| ==> r[k] in rows && p(r[k])
    ensures forall k :: 0 <= k < |rows| && p(rows[k]) ==> rows[k] in r
    ensures r == [] <==> forall k :: 0 <= k < |rows| ==> !p(rows[k])
  {
    if rows == [] then []
    else
      var rest := Where(rows[1..], p);
      assert forall k :: 1 <= k < |rows| ==> rows[k] == rows[1..][k - 1];
      if p(rows[0]) then [rows[0]] + rest else rest
  }

  /**
   * `.single()`: the matching row when exactly one row matches; otherwise
   * the client reports an error and `data` is null.
   */
  function Single<T>(rows: seq<T>, p: T -> bool): (r: Option<T>)
    ensures r.Some? <==> |Where(rows, p)| == 1
    ensures r.Some? ==> r.value in rows && p(r.value)
  {
    var matches := Where(rows, p);
    if |matches| == 1 then
      assert matches[0] in matches;
      Some(matches[0])
    else None
  }

  /** `.update(f).eq(...)`: every matching row is rewritten, the others are kept, order is kept. */
  function UpdateWhere<T>(rows: seq<T>, p: T -> bool, f: T -> T): (r: seq<T>)
    ensures |r| == |rows|
    ensures forall i :: 0 <= i < |rows| ==> r[i] == if p(rows[i]) then f(rows[i]) else rows[i]
  {
    seq(|rows|, i requires 0 <= i < |rows| => if p(rows[i]) then f(rows[i]) else rows[i])
  }

  /** No two rows share a value in the given column. */
  ghost predicate KeyUnique<T, K>(rows: seq<T>, column: T -> K) {
    forall i, j :: 0 <= i < j < |rows| ==> column(rows[i]) != column(rows[j])
  }

  /**
   * When every row a filter accepts has one given value in a column without
   * duplicates, `.single()` finds a row exactly when the filter accepts one.
   */
  lemma {:induction false} SingleWithinUniqueKey<T, K>(rows: seq<T>, column: T -> K, value: K, p: T -> bool)
    requires KeyUnique(rows, column)
    requires forall x :: p(x) ==> column(x) == value
    ensures Single(rows, p).Some? <==> exists i :: 0 <= i < |rows| && p(rows[i])
  {
    if rows != [] {
      var tail := rows[1..];
      assert KeyUnique(tail, column) by {
        forall i, j | 0 <= i < j < |tail| ensures column(tail[i]) != column(tail[j]) {
          assert tail[i] == rows[i + 1] && tail[j] == rows[j + 1];
        }
      }
      SingleWithinUniqueKey(tail, column, value, p);
      if p(rows[0]) {
        // no later row has the value, so the filter keeps the head alone
        assert forall i :: 0 <= i < |tail| ==> !p(tail[i]) by {
          forall i | 0 <= i < |tail| ensures !p(tail[i]) {
            assert tail[i] == rows[i + 1];
          }
        }
        assert Where(tail, p) == [];
      } else {
        assert Where(rows, p) == Where(tail, p);
        if exists i :: 0 <= i < |rows| && p(rows[i]) {
          var i :| 0 <= i < |rows| && p(rows[i]);
          assert tail[i - 1] == rows[i];
        }
        if exists i :: 0 <= i < |tail| && p(tail[i]) {
          var i :| 0 <= i < |tail| && p(tail[i]);
          assert rows[i + 1] == tail[i];
        }
      }
    }
  }

  // ---------------------------------------------------------------------------
  // `.order(column, { ascending: false })`
  // ---------------------------------------------------------------------------

  /** Rows in non-increasing order of the key: newest first. */
  ghost predicate NonIncreasing<T>(rows: seq<T>, key: T -> int) {
    forall i, j :: 0 <= i < j < |rows| ==> key(rows[i]) >= key(rows[j])
  }

  /** A bound on every key of `pool` and on `x` bounds every key of a sequence holding exactly those rows. */
  lemma BoundCarries<T>(rows: seq<T>, pool: seq<T>, x: T, key: T -> int, bound: int)
    requires multiset(rows) == multiset(pool) + multiset{x}
    requires key(x) <= bound
    requires forall k :: 0 <= k < |pool| ==> key(pool[k]) <= bound
    ensures forall k :: 0 <= k < |rows| ==> key(rows[k]) <= bound
  {
    forall k | 0 <= k < |rows| ensures key(rows[k]) <= bound {
      assert rows[k] in multiset(rows);
      if rows[k] != x {
        assert rows[k] in multiset(pool);
        var m :| 0 <= m < |pool| && pool[m] == rows[k];
      }
    }
  }

  /** Inserts x before the first row with a smaller key. */
  function InsertDesc<T>(x: T, sorted: seq<T>, key: T -> int): (r: seq<T>)
    requires NonIncreasing(sorted, key)
    ensures NonIncreasing(r, key)
    ensures multiset(r) == multiset(sorted) + multiset{x}
    ensures |r| == |sorted| + 1
  {
    if sorted == [] || key(x) >= key(sorted[0]) then
      assert forall k :: 0 <= k < |sorted| ==> key(sorted[0]) >= key(sorted[k]);
      [x] + sorted
    else
      var tail := sorted[1..];
      assert NonIncreasing(tail, key);
      var rest := InsertDesc(x, tail, key);
      assert sorted == [sorted[0]] + tail;
      assert forall k :: 0 <= k < |tail| ==> key(tail[k]) <= key(sorted[0]);
      BoundCarries(rest, tail, x, key, key(sorted[0]));
      [sorted[0]] + rest
  }

  /** `.order(key, { ascending: false })`: the same rows, newest first. */
  function OrderByDesc<T>(rows: seq<T>, key: T -> int): (r: seq<T>)
    ensures NonIncreasing(r, key)
    ensures multiset(r) == multiset(rows)
    ensures |r| == |rows|
  {
    if rows == [] then []
    else
      assert rows == [rows[0]] + rows[1..];
      InsertDesc(rows[0], OrderByDesc(rows[1..], key), key)
  }
}
