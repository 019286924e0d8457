/**
 * The subscription server actions (app/actions/subscriptions.ts): cancel and
 * reactivate a subscription the caller owns, read the caller's current
 * subscription, and open a Polar checkout session.
 */
module SubscriptionActions {
  import opened Wrappers
  import opened Tables
  import opened Database
  import opened Actions
  import Zod

  /** A call made to the Polar API. */
  datatype PolarCall =
    | CancelAtPolar(polarSubscriptionId: Option<string>)
      /** `updateSubscription(id, { metadata: { cancel_at_period_end: 'false' } })` */
    | ReactivateAtPolar(polarSubscriptionId: Option<string>)
    | CreateCheckout(productId: string, priceId: string, customerEmail: string, userId: string)

  /** How a Polar call ended: it returned, or it threw. */
  datatype CallOutcome = Returned | Threw(error: Thrown)

  // ---------------------------------------------------------------------------
  // cancelSubscription / reactivateSubscription
  // ---------------------------------------------------------------------------

  /** The two actions differ only in the flag they set, the call they make and their fallback message. */
  datatype Toggle = Cancel | Reactivate

  function FlagOf(t: Toggle): bool {
    t == Cancel
  }

  function CallFor(t: Toggle, polarSubscriptionId: Option<string>): PolarCall {
    match t
    case Cancel => CancelAtPolar(polarSubscriptionId)
    case Reactivate => ReactivateAtPolar(polarSubscriptionId)
  }

  function FallbackOf(t: Toggle): string {
    match t
    case Cancel => "Failed to cancel subscription"
    case Reactivate => "Failed to reactivate subscription"
  }

  const NotFound := "Subscription not found"

  /** The filter `.eq('id', subscriptionId).eq('user_id', user.id)`. */
  function IsOwned(subscriptionId: string, userId: string): (p: SubscriptionRow -> bool)
    ensures forall row :: p(row) == (row.id == subscriptionId && row.user_id == userId)
  {
    (row: SubscriptionRow) => row.id == subscriptionId && row.user_id == userId
  }

  /** The ownership check: the subscription with that id, if the caller owns it. */
  function OwnedRow(subscriptions: seq<SubscriptionRow>, subscriptionId: string, userId: string): Option<SubscriptionRow> {
    Single(subscriptions, IsOwned(subscriptionId, userId))
  }

  /** With ids unique, the ownership check passes exactly when the caller owns a row with that id. */
  lemma OwnedRowFound(subscriptions: seq<SubscriptionRow>, subscriptionId: string, userId: string)
    requires KeyUnique(subscriptions, SubscriptionIdOf)
    ensures OwnedRow(subscriptions, subscriptionId, userId).Some? <==>
            exists i :: 0 <= i < |subscriptions| && subscriptions[i].id == subscriptionId && subscriptions[i].user_id == userId
  {
    SingleWithinUniqueKey(subscriptions, SubscriptionIdOf, subscriptionId, IsOwned(subscriptionId, userId));
  }

  function SetFlag(flag: bool): (f: SubscriptionRow -> SubscriptionRow)
    ensures forall row :: f(row) == row.(cancel_at_period_end := flag)
  {
    (row: SubscriptionRow) => row.(cancel_at_period_end := flag)
  }

  /** `.update({ cancel_at_period_end: flag }).eq('id', subscriptionId)`. */
  function WithCancelFlag(subscriptions: seq<SubscriptionRow>, subscriptionId: string, flag: bool): (r: seq<SubscriptionRow>)
    ensures |r| == |subscriptions|
    ensures forall i :: 0 <= i < |r| ==>
      r[i] == if subscriptions[i].id == subscriptionId then subscriptions[i].(cancel_at_period_end := flag) else subscriptions[i]
  {
    UpdateWhere(subscriptions, HasSubscriptionId(subscriptionId), SetFlag(flag))
  }

  /** The subscriptions table, the action's result and the Polar calls made, after one run. */
  datatype ToggleRun = ToggleRun(subscriptions: seq<SubscriptionRow>, result: ActionResult<()>, calls: seq<PolarCall>)

  /**
   * One run of cancelSubscription or reactivateSubscription. `polar` is how
   * the Polar call ends; `updateApplied` is false when the local update
   * returns an error, which the action does not look at.
   */
  function Toggled(subscriptions: seq<SubscriptionRow>, auth: AuthLookup, subscriptionId: string, t: Toggle,
                   polar: CallOutcome, updateApplied: bool): (r: ToggleRun)
    ensures Caller(auth).None? ==> r == ToggleRun(subscriptions, Failed(NotAuthenticated), [])
    ensures r.calls == [] <==> Caller(auth).None? || OwnedRow(subscriptions, subscriptionId, Caller(auth).value).None?
    ensures r.calls != [] ==>
              && Caller(auth).Some?
              && r.calls == [CallFor(t, OwnedRow(subscriptions, subscriptionId, Caller(auth).value).value.polar_subscription_id)]
    ensures r.calls == [] ==> r.subscriptions == subscriptions && !r.result.success
    ensures polar.Threw? ==> r.subscriptions == subscriptions
    ensures polar.Threw? && r.calls != [] ==> r.result == Failed(MessageOr(polar.error, FallbackOf(t)))
    ensures r.result.success <==> r.calls != [] && polar.Returned?
  {
    match Caller(auth)
    case None => ToggleRun(subscriptions, Failed(NotAuthenticated), [])
    case Some(userId) =>
      match OwnedRow(subscriptions, subscriptionId, userId)
      case None => ToggleRun(subscriptions, Failed(NotFound), [])
      case Some(row) =>
        var calls := [CallFor(t, row.polar_subscription_id)];
        match polar
        case Threw(error) => ToggleRun(subscriptions, Failed(MessageOr(error, FallbackOf(t))), calls)
        case Returned =>
          ToggleRun(if updateApplied then WithCancelFlag(subscriptions, subscriptionId, FlagOf(t)) else subscriptions,
                    Succeeded(None), calls)
  }

  /** A subscription the caller does not own, or that does not exist, is "not found" and nothing happens. */
  lemma NotOwnedIsNotFound(subscriptions: seq<SubscriptionRow>, auth: AuthLookup, subscriptionId: string, t: Toggle,
                           polar: CallOutcome, updateApplied: bool)
    requires KeyUnique(subscriptions, SubscriptionIdOf)
    requires Caller(auth).Some?
    ensures (forall i :: 0 <= i < |subscriptions| ==> !(subscriptions[i].id == subscriptionId && subscriptions[i].user_id == Caller(auth).value))
            <==> Toggled(subscriptions, auth, subscriptionId, t, polar, updateApplied) == ToggleRun(subscriptions, Failed(NotFound), [])
  {
    OwnedRowFound(subscriptions, subscriptionId, Caller(auth).value);
  }

  /**
   * A run changes at most the caller's row with that id, and on it only
   * `cancel_at_period_end`, set to the action's flag.
   */
  lemma ToggleTouchesOnlyOwnedFlag(subscriptions: seq<SubscriptionRow>, auth: AuthLookup, subscriptionId: string, t: Toggle,
                                   polar: CallOutcome, updateApplied: bool)
    requires KeyUnique(subscriptions, SubscriptionIdOf)
    ensures var after := Toggled(subscriptions, auth, subscriptionId, t, polar, updateApplied).subscriptions;
            |after| == |subscriptions| &&
            forall i :: 0 <= i < |after| && after[i] != subscriptions[i] ==>
              after[i] == subscriptions[i].(cancel_at_period_end := FlagOf(t)) &&
              subscriptions[i].id == subscriptionId && Caller(auth) == Some(subscriptions[i].user_id)
  {
    var r := Toggled(subscriptions, auth, subscriptionId, t, polar, updateApplied);
    if r.subscriptions != subscriptions {
      var userId := Caller(auth).value;
      var row := OwnedRow(subscriptions, subscriptionId, userId).value;
      var k :| 0 <= k < |subscriptions| && subscriptions[k] == row;
      assert forall i :: 0 <= i < |subscriptions| && subscriptions[i].id == subscriptionId ==> i == k;
    }
  }

  /** The update keeps every id, so ids stay unique. */
  lemma WithCancelFlagKeepsKeys(subscriptions: seq<SubscriptionRow>, subscriptionId: string, flag: bool)
    requires KeyUnique(subscriptions, SubscriptionIdOf)
    ensures KeyUnique(WithCancelFlag(subscriptions, subscriptionId, flag), SubscriptionIdOf)
  {
    var r := WithCancelFlag(subscriptions, subscriptionId, flag);
    forall i, j | 0 <= i < j < |r| ensures SubscriptionIdOf(r[i]) != SubscriptionIdOf(r[j]) {
      assert SubscriptionIdOf(r[i]) == SubscriptionIdOf(subscriptions[i]);
      assert SubscriptionIdOf(r[j]) == SubscriptionIdOf(subscriptions[j]);
    }
  }

  /** Ownership is about id and user_id, which the flag update leaves alone. */
  lemma OwnershipSurvivesFlag(subscriptions: seq<SubscriptionRow>, subscriptionId: string, userId: string, flag: bool)
    requires KeyUnique(subscriptions, SubscriptionIdOf)
    ensures OwnedRow(WithCancelFlag(subscriptions, subscriptionId, flag), subscriptionId, userId).Some? ==
            OwnedRow(subscriptions, subscriptionId, userId).Some?
  {
    var updated := WithCancelFlag(subscriptions, subscriptionId, flag);
    WithCancelFlagKeepsKeys(subscriptions, subscriptionId, flag);
    OwnedRowFound(subscriptions, subscriptionId, userId);
    OwnedRowFound(updated, subscriptionId, userId);
    assert forall i :: 0 <= i < |updated| ==> updated[i].id == subscriptions[i].id && updated[i].user_id == subscriptions[i].user_id;
  }

  /** Of two flag updates on the same id, the later one decides. */
  lemma LastFlagWins(subscriptions: seq<SubscriptionRow>, subscriptionId: string, first: bool, second: bool)
    ensures WithCancelFlag(WithCancelFlag(subscriptions, subscriptionId, first), subscriptionId, second) ==
            WithCancelFlag(subscriptions, subscriptionId, second)
  {
    var once := WithCancelFlag(subscriptions, subscriptionId, first);
    var twice := WithCancelFlag(once, subscriptionId, second);
    var direct := WithCancelFlag(subscriptions, subscriptionId, second);
    forall i | 0 <= i < |twice| ensures twice[i] == direct[i] {
      assert once[i].id == subscriptions[i].id;
    }
  }

  /** Setting the flag to the value every matching row already has changes nothing. */
  lemma FlagAlreadySet(subscriptions: seq<SubscriptionRow>, subscriptionId: string, flag: bool)
    requires forall i :: 0 <= i < |subscriptions| && subscriptions[i].id == subscriptionId ==> subscriptions[i].cancel_at_period_end == flag
    ensures WithCancelFlag(subscriptions, subscriptionId, flag) == subscriptions
  {
    var r := WithCancelFlag(subscriptions, subscriptionId, flag);
    forall i | 0 <= i < |r| ensures r[i] == subscriptions[i] {
    }
  }

  /** A run whose Polar call and local update both go through sets the flag on the caller's row. */
  function FlagRun(subscriptions: seq<SubscriptionRow>, auth: AuthLookup, subscriptionId: string, t: Toggle): (r: seq<SubscriptionRow>)
    ensures r == Toggled(subscriptions, auth, subscriptionId, t, Returned, true).subscriptions
    ensures r == if Caller(auth).Some? && OwnedRow(subscriptions, subscriptionId, Caller(auth).value).Some?
                 then WithCancelFlag(subscriptions, subscriptionId, FlagOf(t)) else subscriptions
  {
    Toggled(subscriptions, auth, subscriptionId, t, Returned, true).subscriptions
  }

  /**
   * Cancelling and then reactivating, both reaching Polar and the database,
   * amounts to one update setting the flag false on the caller's row; a row
   * that was not marked for cancellation comes back unchanged.
   */
  lemma CancelThenReactivate(subscriptions: seq<SubscriptionRow>, auth: AuthLookup, subscriptionId: string)
    requires KeyUnique(subscriptions, SubscriptionIdOf)
    ensures FlagRun(FlagRun(subscriptions, auth, subscriptionId, Cancel), auth, subscriptionId, Reactivate) ==
            if Caller(auth).Some? && OwnedRow(subscriptions, subscriptionId, Caller(auth).value).Some?
            then WithCancelFlag(subscriptions, subscriptionId, false) else subscriptions
  {
    if Caller(auth).Some? && OwnedRow(subscriptions, subscriptionId, Caller(auth).value).Some? {
      OwnershipSurvivesFlag(subscriptions, subscriptionId, Caller(auth).value, true);
      LastFlagWins(subscriptions, subscriptionId, true, false);
    }
  }

  /** A subscription that was not marked for cancellation comes back unchanged from cancel then reactivate. */
  lemma CancelThenReactivateRestores(subscriptions: seq<SubscriptionRow>, auth: AuthLookup, subscriptionId: string)
    requires KeyUnique(subscriptions, SubscriptionIdOf)
    requires forall i :: 0 <= i < |subscriptions| && subscriptions[i].id == subscriptionId ==> !subscriptions[i].cancel_at_period_end
    ensures FlagRun(FlagRun(subscriptions, auth, subscriptionId, Cancel), auth, subscriptionId, Reactivate) == subscriptions
  {
    CancelThenReactivate(subscriptions, auth, subscriptionId);
    FlagAlreadySet(subscriptions, subscriptionId, false);
  }

  /** The shared body of the two actions, updating the table in place. */
  method SetCancellation(db: Store, auth: AuthLookup, subscriptionId: string, t: Toggle, polar: CallOutcome, updateApplied: bool)
    returns (result: ActionResult<()>, calls: seq<PolarCall>)
    requires db.Valid()
    modifies db`subscriptions
    ensures db.Valid()
    ensures ToggleRun(db.subscriptions, result, calls) == Toggled(old(db.subscriptions), auth, subscriptionId, t, polar, updateApplied)
  {
    var caller := Caller(auth);
    if caller.None? {
      return Failed(NotAuthenticated), [];
    }
    var owned := OwnedRow(db.subscriptions, subscriptionId, caller.value);
    if owned.None? {
      return Failed(NotFound), [];
    }
    calls := [CallFor(t, owned.value.polar_subscription_id)];
    if polar.Threw? {
      result := Failed(MessageOr(polar.error, FallbackOf(t)));
      return;
    }
    if updateApplied {
      WithCancelFlagKeepsKeys(db.subscriptions, subscriptionId, FlagOf(t));
      db.subscriptions := WithCancelFlag(db.subscriptions, subscriptionId, FlagOf(t));
    }
    result := Succeeded(None);
  }

  /** cancelSubscription: Polar first, then `cancel_at_period_end = true` locally. */
  method CancelSubscription(db: Store, auth: AuthLookup, subscriptionId: string, polar: CallOutcome, updateApplied: bool)
    returns (result: ActionResult<()>, calls: seq<PolarCall>)
    requires db.Valid()
    modifies db`subscriptions
    ensures db.Valid()
    ensures ToggleRun(db.subscriptions, result, calls) == Toggled(old(db.subscriptions), auth, subscriptionId, Cancel, polar, updateApplied)
  {
    result, calls := SetCancellation(db, auth, subscriptionId, Cancel, polar, updateApplied);
  }

  /** reactivateSubscription: Polar first, then `cancel_at_period_end = false` locally. */
  method ReactivateSubscription(db: Store, auth: AuthLookup, subscriptionId: string, polar: CallOutcome, updateApplied: bool)
    returns (result: ActionResult<()>, calls: seq<PolarCall>)
    requires db.Valid()
    modifies db`subscriptions
    ensures db.Valid()
    ensures ToggleRun(db.subscriptions, result, calls) == Toggled(old(db.subscriptions), auth, subscriptionId, Reactivate, polar, updateApplied)
  {
    result, calls := SetCancellation(db, auth, subscriptionId, Reactivate, polar, updateApplied);
  }

  // ---------------------------------------------------------------------------
  // getUserSubscription
  // ---------------------------------------------------------------------------

  /** The columns getUserSubscription selects. */
  datatype SubscriptionSummary = SubscriptionSummary(
    id: string,
    product_id: Option<string>,
    status: SubscriptionStatus,
    current_period_end: Option<Timestamp>,
    cancel_at_period_end: bool)

  function Summary(row: SubscriptionRow): SubscriptionSummary {
    SubscriptionSummary(row.id, row.product_id, row.status, row.current_period_end, row.cancel_at_period_end)
  }

  /** A row of the user whose status is `active` or `trialing`. */
  predicate Live(row: SubscriptionRow, userId: string) {
    row.user_id == userId && (row.status == SubscriptionStatus.Active || row.status == SubscriptionStatus.Trialing)
  }

  /** The filter `.eq('user_id', id).in('status', ['active', 'trialing'])`. */
  function IsLive(userId: string): (p: SubscriptionRow -> bool)
    ensures forall row :: p(row) == Live(row, userId)
  {
    (row: SubscriptionRow) => Live(row, userId)
  }

  /** `.order('created_at', { ascending: false }).limit(1).single()` over the live rows. */
  function LatestLive(subscriptions: seq<SubscriptionRow>, userId: string): (r: Option<SubscriptionRow>)
    ensures r.None? <==> forall i :: 0 <= i < |subscriptions| ==> !Live(subscriptions[i], userId)
    ensures r.Some? ==> r.value in subscriptions && Live(r.value, userId)
  {
    var live := Where(subscriptions, IsLive(userId));
    var ordered := OrderByDesc(live, CreatedAtOf);
    if ordered == [] then None
    else
      assert ordered[0] in multiset(live);
      Some(ordered[0])
  }

  /** No live row of the user was created after the one returned. */
  lemma LatestLiveIsNewest(subscriptions: seq<SubscriptionRow>, userId: string, i: nat)
    requires i < |subscriptions| && Live(subscriptions[i], userId)
    ensures LatestLive(subscriptions, userId).Some?
    ensures subscriptions[i].created_at <= LatestLive(subscriptions, userId).value.created_at
  {
    var live := Where(subscriptions, IsLive(userId));
    var ordered := OrderByDesc(live, CreatedAtOf);
    assert subscriptions[i] in live;
    assert subscriptions[i] in multiset(ordered);
    var k :| 0 <= k < |ordered| && ordered[k] == subscriptions[i];
    if k > 0 {
      assert CreatedAtOf(ordered[0]) >= CreatedAtOf(ordered[k]);
    }
  }

  /** `LatestLiveIsNewest` for every live row of the user at once. */
  lemma LatestLiveIsNewestOfAll(subscriptions: seq<SubscriptionRow>, userId: string)
    ensures LatestLive(subscriptions, userId).Some? ==>
              forall j :: 0 <= j < |subscriptions| && Live(subscriptions[j], userId) ==>
                subscriptions[j].created_at <= LatestLive(subscriptions, userId).value.created_at
  {
    forall j | 0 <= j < |subscriptions| && Live(subscriptions[j], userId)
      ensures subscriptions[j].created_at <= LatestLive(subscriptions, userId).value.created_at
    {
      LatestLiveIsNewest(subscriptions, userId, j);
    }
  }

  /** getUserSubscription: the caller's newest active-or-trialing subscription, or null. */
  function GetUserSubscription(subscriptions: seq<SubscriptionRow>, auth: AuthLookup): (r: ActionResult<Option<SubscriptionSummary>>)
    ensures Caller(auth).None? ==> r == Failed(NotAuthenticated)
    ensures Caller(auth).Some? ==> r.success && r.data.Some?
    ensures Caller(auth).Some? && r.data.value.Some? ==>
              exists i :: 0 <= i < |subscriptions| && Live(subscriptions[i], Caller(auth).value) &&
                          r.data.value.value == Summary(subscriptions[i]) &&
                          forall j :: 0 <= j < |subscriptions| && Live(subscriptions[j], Caller(auth).value) ==>
                            subscriptions[j].created_at <= subscriptions[i].created_at
    ensures Caller(auth).Some? ==>
              (r.data.value.None? <==> forall i :: 0 <= i < |subscriptions| ==> !Live(subscriptions[i], Caller(auth).value))
  {
    match Caller(auth)
    case None => Failed(NotAuthenticated)
    case Some(userId) =>
      LatestLiveIsNewestOfAll(subscriptions, userId);
      match LatestLive(subscriptions, userId)
      case None => Succeeded(Some(None))
      case Some(row) => Succeeded(Some(Some(Summary(row))))
  }

  // ---------------------------------------------------------------------------
  // createCheckoutSession
  // ---------------------------------------------------------------------------

  /** `z.object({ productId: z.string().uuid(), priceId: z.string() })`. */
  function CheckoutSchema(productId: Zod.Field, priceId: Zod.Field): seq<Zod.Key> {
    [Zod.Key(productId, [Zod.Uuid]), Zod.Key(priceId, [])]
  }

  const ProfileNotFound := "User profile not found"

  /** How `polarClient.createCheckoutSession` ended. */
  datatype CheckoutOutcome = SessionCreated(url: string) | CheckoutThrew(error: Thrown)

  datatype CheckoutRun = CheckoutRun(result: ActionResult<string>, calls: seq<PolarCall>)

  /** The first message of the checkout schema, key by key. */
  function CheckoutIssue(productId: Zod.Field, priceId: Zod.Field): (r: Option<string>)
    ensures productId.None? ==> r == Some(Zod.ExpectedString)
    ensures productId.Some? && !Zod.IsUuid(productId.value) ==> r == Some(Zod.InvalidUuid)
    ensures productId.Some? && Zod.IsUuid(productId.value) ==> r == if priceId.None? then Some(Zod.ExpectedString) else None
  {
    var keys := CheckoutSchema(productId, priceId);
    assert keys[1..] == [Zod.Key(priceId, [])];
    assert keys[1..][1..] == [];
    assert productId.Some? ==> Zod.KeyIssue(keys[0], Zod.NoEmail) == if Zod.IsUuid(productId.value) then None else Some(Zod.InvalidUuid);
    assert Zod.KeyIssue(keys[1], Zod.NoEmail) == if priceId.None? then Some(Zod.ExpectedString) else None;
    assert Zod.FirstIssue(keys[1..], Zod.NoEmail) == Zod.KeyIssue(keys[1], Zod.NoEmail);
    Zod.FirstIssue(keys, Zod.NoEmail)
  }

  /**
   * createCheckoutSession: session, then the form, then the profile row,
   * then Polar; the result carries the checkout URL.
   */
  function CreateCheckoutSession(users: seq<UserRow>, auth: AuthLookup, productId: Zod.Field, priceId: Zod.Field,
                                 polar: CheckoutOutcome): (r: CheckoutRun)
    ensures Caller(auth).None? ==> r == CheckoutRun(Failed(NotAuthenticated), [])
    ensures Caller(auth).Some? && productId.None? ==> r == CheckoutRun(Failed(Zod.ExpectedString), [])
    ensures Caller(auth).Some? && productId.Some? && !Zod.IsUuid(productId.value) ==> r == CheckoutRun(Failed(Zod.InvalidUuid), [])
    ensures Caller(auth).Some? && productId.Some? && Zod.IsUuid(productId.value) && priceId.None? ==>
              r == CheckoutRun(Failed(Zod.ExpectedString), [])
    ensures Caller(auth).Some? && productId.Some? && priceId.Some? &&
            (forall i :: 0 <= i < |users| ==> users[i].id != Caller(auth).value) ==>
              r.calls == [] && !r.result.success
    ensures Caller(auth).Some? && productId.Some? && Zod.IsUuid(productId.value) && priceId.Some? &&
            (forall i :: 0 <= i < |users| ==> users[i].id != Caller(auth).value) ==>
              r == CheckoutRun(Failed(ProfileNotFound), [])
    ensures r.calls != [] ==>
              exists i :: 0 <= i < |users| && users[i].id == Caller(auth).value &&
                r.calls == [CreateCheckout(productId.value, priceId.value, users[i].email, Caller(auth).value)]
    ensures Caller(auth).Some? && CheckoutIssue(productId, priceId).None? && Single(users, IsUser(Caller(auth).value)).Some? ==>
              r.calls != []
    ensures polar.CheckoutThrew? && r.calls != [] ==> r.result == Failed(MessageOr(polar.error, "Failed to create checkout"))
    ensures r.result.success <==> r.calls != [] && polar.SessionCreated?
    ensures r.result.success ==> r.result.data == Some(polar.url)
  {
    match Caller(auth)
    case None => CheckoutRun(Failed(NotAuthenticated), [])
    case Some(userId) =>
      match CheckoutIssue(productId, priceId)
      case Some(message) => CheckoutRun(Failed(message), [])
      case None =>
        match Single(users, IsUser(userId))
        case None => CheckoutRun(Failed(ProfileNotFound), [])
        case Some(profile) =>
          var calls := [CreateCheckout(productId.value, priceId.value, profile.email, userId)];
          match polar
          case SessionCreated(url) => CheckoutRun(Succeeded(Some(url)), calls)
          case CheckoutThrew(error) => CheckoutRun(Failed(MessageOr(error, "Failed to create checkout")), calls)
  }
}
