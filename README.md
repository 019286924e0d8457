# Polar billing core of a Next.js and Supabase boilerplate, in Dafny

This project models the server side of a SaaS boilerplate that bills through
Polar and stores its data in Supabase, and proves properties of that model.

**The webhook route.** `POST /api/webhooks/polar` is modelled as a `Store`
class. The class holds the four tables the route touches: `users`,
`products`, `subscriptions` and `webhook_events`. A delivery:

1. checks the signature (HMAC-SHA256 per RFC 2104, the MAC itself left abstract);
2. parses the body;
3. de-duplicates on `event_id`;
4. records the event as unprocessed;
5. runs one of five handlers;
6. marks the event processed.

Each store write may succeed, come back with an `{ error }` that the code
ignores, or throw. `Post` and the handler methods update the tables in place.
Each is proved equal to a function over table snapshots: `Deliver`, and
`AfterCreated`, `AfterUpdated`, `AfterCanceled` and `AfterPayment` for the
handlers. The lemmas about a delivery are stated over those functions.

The model follows the code in three places a reader might not expect:
- De-duplication ignores the `processed` flag. An event whose handler failed is answered as a duplicate when it is redelivered, and it is never processed again.
- `subscription.created` does a plain insert.
- A subscription whose product is unknown is stored with a null product.

**Subscription actions.**
- `cancelSubscription` and `reactivateSubscription` update the caller's row in place. Both pass an ownership check and call Polar before the local update.
- `getUserSubscription` is a filter, sort and limit query.
- `createCheckoutSession` validates the form and looks up the profile before calling Polar.

**Pure helpers.**
- the signature helpers;
- the plan catalogue and its lookups;
- the yearly-savings arithmetic, in exact integers;
- `truncate`, `getEnvVar` and the response builders;
- the `generateId` loop;
- the zod validation and error mapping of the auth actions;
- the auth callback's redirect decision;
- the subscriptions listing API.

**What the model takes as parameters.**
- Crypto, JSON parsing, the e-mail pattern, the clock, randomness and identifier generation are parameters or nondeterministic choices.
- Every call to Supabase Auth or to the Polar API is a parameter giving its outcome.
- Each model also returns the trace of calls it made, so "validation before any provider call" can be stated.

`Buffer.from` is modelled as UTF-8 encoding (`Utf8.Encode`). Encoding is proved injective, so comparing buffers is the same as comparing strings.

## Model

| member | source | states |
|---|---|---|
| Utils.ResponseDefaults | lib/utils.ts:36-55 | an error response defaults to status 400 and body `{error, details}` with no details; a success response defaults to 200 with the data as body |
| Utils.GetEnvVar | lib/utils.ts:60-66 | the value is returned exactly when the variable is set and non-empty, otherwise it throws `Missing environment variable: <key>` |
| Utils.GenerateId | lib/utils.ts:78-86 | the loop builds exactly `length` characters (none for a negative length, 16 by default), each from the 62-character alphabet |
| Utils.Truncate | lib/utils.ts:91-94 | text no longer than the limit is returned unchanged; longer text becomes its first `maxLength` characters plus `...`, so `maxLength + 3` long, for a non-negative limit; a negative limit keeps all but the last `-maxLength` characters (none when that is more than the text) and adds `...` |
| Utils.TruncateIdempotent | lib/utils.ts:91-94 | for a non-negative limit, truncating twice equals truncating once |
| Utf8.DecodeEncodeChar | lib/polar/webhooks.ts:22-23 | decoding the UTF-8 bytes `Buffer.from` gives a character returns that character |
| Utf8.EncodeInjective | lib/polar/webhooks.ts:21-24 | two strings with equal UTF-8 buffers are equal, so the buffer comparison is a string comparison |
| PolarWebhooks.ExtractWebhookSignature | lib/polar/webhooks.ts:34-43 | a non-empty `x-polar-signature` wins; otherwise `webhook-signature` is returned as it is, possibly absent |
| PolarWebhooks.SignaturePresence | lib/polar/webhooks.ts:38-42 | a signature is present iff one of the two headers is non-empty, and the result is null iff the first is absent or empty and the second is absent |
| PolarWebhooks.TimingSafeEqual | lib/polar/webhooks.ts:21-24 | buffers of different lengths throw; buffers of equal length compare true iff equal |
| PolarWebhooks.VerifyWebhookSignature | lib/polar/webhooks.ts:8-29 | true iff the secret is set and non-empty and the UTF-8 bytes of the signature equal those of the hex digest; a missing secret or a length mismatch is caught as false |
| PolarWebhooks.VerifyIffDigestMatches | lib/polar/webhooks.ts:8-29 | verification is true iff `POLAR_WEBHOOK_SECRET` is set and non-empty and the signature equals the hex HMAC of the payload under it |
| PolarWebhooks.LengthMismatchRejected | lib/polar/webhooks.ts:21-28 | a signature whose byte length differs from the digest's gives false rather than an exception |
| PolarWebhooks.ParseWebhookPayload | lib/polar/webhooks.ts:48-55 | the result is null exactly on malformed JSON, otherwise the parsed value |
| Plans.RoundQuotient | config/plans.ts:108 | `Math.round(p / q)` for q > 0: the integer within half of p/q, with halves rounded up |
| Plans.RoundQuotientUnique | config/plans.ts:108 | only one integer lies within that half-open band, so the rounding is exactly determined |
| Plans.CalculateYearlySavings | config/plans.ts:105-109 | no number when the monthly price is 0 (the source gives NaN when the yearly price is also 0, and ±Infinity otherwise); otherwise the rounding of 100 × (12·monthly − yearly) / (12·monthly) |
| Plans.ConfiguredPlansSaveTwentyPercent | config/plans.ts:28-100 | each configured plan saves exactly 20 percent on the yearly price |
| Plans.ConfiguredYearlyIsCheaper | config/plans.ts:28-100 | each configured plan's yearly price is positive and below twelve monthly payments |
| Plans.FindIndex | config/plans.ts:114-129 | `Array.find`: the first index whose plan satisfies the test, or none when no plan does |
| Plans.GetPlanById | config/plans.ts:114-116 | a plan from the catalogue with that id, and none exactly when no plan has it |
| Plans.GetPlanByPolarProductId | config/plans.ts:121-129 | a plan from the catalogue whose monthly or yearly Polar id is the query, and none exactly when none matches |
| Plans.CatalogueKeysDistinct | config/plans.ts:28-100 | the three plan ids are pairwise distinct, and so are the six Polar product ids |
| Plans.GetPlanByIdExact | config/plans.ts:114-116 | the lookup returns a given catalogue plan iff its id is the query |
| Plans.GetPlanByPolarProductIdExact | config/plans.ts:121-129 | the lookup returns a given catalogue plan iff one of its two Polar ids is the query |
| Tables.Where | app/api/subscriptions/route.ts:39 | a filter keeps exactly the rows satisfying it, drawn from the table, and is empty iff no row does |
| Tables.Single | app/api/webhooks/polar/route.ts:41-45 | `.single()` yields a row iff exactly one row matches, and the row it yields matches |
| Tables.SingleWithinUniqueKey | app/api/webhooks/polar/route.ts:41-47 | on a column without duplicates, `.single()` finds a row iff some row matches the filter |
| Tables.UpdateWhere | app/api/webhooks/polar/route.ts:159-168 | `.update().eq()` rewrites exactly the matching rows and leaves the others and the row count as they were |
| Tables.OrderByDesc | app/api/subscriptions/route.ts:40 | descending order: the same rows as a multiset, newest first |
| WebhookRoute.AfterCreated | app/api/webhooks/polar/route.ts:112-150 | no user with the customer's e-mail: no write; otherwise exactly one appended row for that user, whose product is null iff the product lookup does not find exactly one product with the Polar product id, with the payload's Polar id, status, period bounds, cancel flag, trial dates and metadata (`{}` when absent), a null `canceled_at` and the clock's creation time |
| WebhookRoute.AfterUpdated | app/api/webhooks/polar/route.ts:155-171 | rows with the Polar id take status, period start and end, the cancel flag and metadata (`{}` when absent); every other column and every other row is unchanged |
| WebhookRoute.AfterCanceled | app/api/webhooks/polar/route.ts:176-190 | rows with the Polar id become `canceled`, lose the cancel flag and get a cancellation time: the payload's when it is non-empty, otherwise the clock's ISO time; nothing else changes |
| WebhookRoute.AfterPayment | app/api/webhooks/polar/route.ts:195-226 | when the payment names a subscription, rows with that Polar id take the new status (`active` or `past_due`) and nothing else; without one, nothing changes |
| WebhookRoute.MarkProcessed | app/api/webhooks/polar/route.ts:64-67 | rows with the event id become processed at the given time; no other row changes |
| PolarTypes.EventType | app/api/webhooks/polar/route.ts:82-106 | each variant has its own type string (`subscription.created`, `subscription.updated`, `subscription.canceled`, `payment.succeeded`, `payment.failed`), each iff that variant; any other event carries its own name, which is none of the five; so dispatching on the variant is dispatching on `event.type` |
| WebhookRoute.Process | app/api/webhooks/polar/route.ts:52-73 | users and products are never written; a throwing insert writes nothing; the answer is `{received: true}` iff neither the insert, the handler nor the final update throws, and 500 otherwise |
| WebhookRoute.Deliver | app/api/webhooks/polar/route.ts:17-74 | 401 exactly for an unauthentic request; 400 exactly for an authentic body that is not a truthy event; the tables change only for an authentic, parsed, not yet stored event |
| WebhookRoute.UnauthenticRejectedBeforeParsing | app/api/webhooks/polar/route.ts:21-30 | a missing or wrong signature gives 401 and leaves the store untouched, whatever the parser would say |
| WebhookRoute.UnparseableWritesNothing | app/api/webhooks/polar/route.ts:33-37 | an authentic body that does not parse, or parses to a falsy value, gives 400 and writes nothing |
| WebhookRoute.DuplicateChangesNothing | app/api/webhooks/polar/route.ts:41-50 | an event whose id is already stored gets `{received: true, duplicate: true}` and no table changes |
| WebhookRoute.FreshEventProcessed | app/api/webhooks/polar/route.ts:53-69 | a fresh event with every write succeeding adds one event row, marked processed at the clock's time, and applies the handler's effect |
| WebhookRoute.HandlerFailureLeavesEventUnprocessed | app/api/webhooks/polar/route.ts:53-73 | when the handler throws, the answer is 500, the stored event stays unprocessed and the subscriptions are untouched |
| WebhookRoute.FailedDeliveryIsNeverRetried | app/api/webhooks/polar/route.ts:41-58 | redelivering an event whose handler failed is answered as a duplicate and changes nothing, whatever the second attempt's writes would do |
| WebhookRoute.DeliverKeepsKeys | app/api/webhooks/polar/route.ts:17-74 | a delivery keeps event ids and subscription ids unique and never writes users or products |
| WebhookRoute.ProcessKeepsKeys | app/api/webhooks/polar/route.ts:53-67 | recording and handling an unseen event keeps both keys unique |
| WebhookRoute.AfterEventKeepsIds | app/api/webhooks/polar/route.ts:79-107 | no handler changes a row's id, and an insert uses a fresh id |
| WebhookRoute.HandleSubscriptionCreated | app/api/webhooks/polar/route.ts:112-150 | the handler throws iff its write throws, and the table becomes `AfterCreated` of the old state when the write applies |
| WebhookRoute.HandleSubscriptionUpdated | app/api/webhooks/polar/route.ts:155-171 | the same, against `AfterUpdated` |
| WebhookRoute.HandleSubscriptionCanceled | app/api/webhooks/polar/route.ts:176-190 | the same, against `AfterCanceled` |
| WebhookRoute.HandlePaymentSucceeded | app/api/webhooks/polar/route.ts:195-208 | no store access without a subscription id; otherwise the same, against `AfterPayment` with `active` |
| WebhookRoute.HandlePaymentFailed | app/api/webhooks/polar/route.ts:213-226 | the same, with `past_due` |
| WebhookRoute.ProcessWebhookEvent | app/api/webhooks/polar/route.ts:79-107 | dispatch on the event type: it throws iff a store-touching handler's write throws; an unknown type changes nothing |
| WebhookRoute.Record | app/api/webhooks/polar/route.ts:53-69 | insert, dispatch and mark processed in place, ending in the state and response `Process` gives |
| WebhookRoute.Post | app/api/webhooks/polar/route.ts:17-74 | the in-place route ends in exactly the tables and response of `Deliver`, and keeps the store's keys unique |
| Actions.Caller | app/actions/subscriptions.ts:42-49 | there is a caller iff `getUser` reported no error and returned a user |
| Actions.MessageOr | app/actions/subscriptions.ts:144-149 | a caught `Error` yields its message, anything else the fallback |
| SubscriptionActions.OwnedRowFound | app/actions/subscriptions.ts:117-127 | with unique ids, the ownership check passes iff the caller owns a row with that id |
| SubscriptionActions.WithCancelFlag | app/actions/subscriptions.ts:134-139 | the update sets only `cancel_at_period_end`, and only on rows with that id |
| SubscriptionActions.Toggled | app/actions/subscriptions.ts:101-209 | without a caller: 'Not authenticated', no call, no change; no owned row: no call, no change; otherwise exactly one Polar call, naming the owned row's Polar subscription id; a Polar failure: its message or the fallback, no change; success iff Polar returns, and only then can the table change |
| SubscriptionActions.NotOwnedIsNotFound | app/actions/subscriptions.ts:117-127 | a signed-in caller gets 'Subscription not found' with no call and no change iff they own no row with that id |
| SubscriptionActions.ToggleTouchesOnlyOwnedFlag | app/actions/subscriptions.ts:117-139 | a run changes at most the caller's row with that id, and on it only the cancel flag; status is untouched |
| SubscriptionActions.CancelThenReactivate | app/actions/subscriptions.ts:134-196 | cancel followed by reactivate amounts to one update setting the flag false on the caller's row |
| SubscriptionActions.CancelThenReactivateRestores | app/actions/subscriptions.ts:134-196 | a row that was not marked for cancellation comes back from cancel then reactivate exactly as it was |
| SubscriptionActions.CancelSubscription | app/actions/subscriptions.ts:101-151 | the in-place action ends in the table, result and Polar calls `Toggled` gives for cancel, keeping ids unique |
| SubscriptionActions.ReactivateSubscription | app/actions/subscriptions.ts:156-209 | the same for reactivate |
| SubscriptionActions.LatestLive | app/actions/subscriptions.ts:237-244 | a row is found iff the caller has an active or trialing row, and it is one of them |
| SubscriptionActions.LatestLiveIsNewest | app/actions/subscriptions.ts:237-244 | no active or trialing row of the caller was created later than the one found |
| SubscriptionActions.GetUserSubscription | app/actions/subscriptions.ts:214-257 | 'Not authenticated' without a caller; otherwise success with the caller's newest active or trialing row's columns, or null iff there is none |
| SubscriptionActions.CheckoutIssue | app/actions/subscriptions.ts:13-16 | a missing `productId` gives 'Expected string, received null', a non-UUID one 'Invalid uuid'; then a missing `priceId` gives the null message |
| SubscriptionActions.CreateCheckoutSession | app/actions/subscriptions.ts:35-96 | no caller, a rejected form or no profile row each fail with their message and no Polar call; with a caller, a valid form and a profile row, Polar is called exactly once, with the validated ids, the profile's e-mail and the caller; success iff Polar returns a session, with its URL; a Polar throw fails with its message or 'Failed to create checkout' |
| Zod.FirstIssue | app/actions/auth.ts:90-92 | a parse fails iff some key has an issue, and a passing parse has every field present |
| Zod.FirstIssueIsEarliest | app/actions/auth.ts:90-92 | `errors[0].message` is the first issue of the first failing key in schema order |
| AuthActions.CatchRethrowingRedirects | app/actions/auth.ts:86-94 | an error whose digest starts with `NEXT_REDIRECT` is rethrown; any other becomes 'An unexpected error occurred' |
| AuthActions.SignUp | app/actions/auth.ts:45-95 | a form issue is returned with no Supabase call; a provider error is returned as its message; after the call, success with `needsEmailConfirmation` iff the identities list is empty, otherwise a redirect to /dashboard; a thrown redirect is rethrown and any other throw gives 'An unexpected error occurred' |
| AuthActions.SignIn | app/actions/auth.ts:97-128 | validation before the call; a provider error is returned; provider data gives a redirect to /dashboard, never a success result; a thrown redirect is rethrown and any other throw gives 'An unexpected error occurred' |
| AuthActions.ResetPassword | app/actions/auth.ts:143-173 | validation before the call; it always returns, succeeding iff the call answers without error; a throw becomes the generic message |
| AuthActions.UpdatePassword | app/actions/auth.ts:175-206 | a missing password or one under 8 characters is refused with no call; a provider error is returned; provider data gives a redirect to /dashboard; a thrown redirect is rethrown and any other throw gives 'An unexpected error occurred' |
| AuthActions.SignUpShortPassword | app/actions/auth.ts:12-16 | with a well-formed e-mail, a password under 8 characters gets 'Password must be at least 8 characters' and no call |
| AuthActions.SignUpShortName | app/actions/auth.ts:12-16 | with a valid e-mail and password, a full name under 2 characters gets its message and no call |
| AuthActions.SignUpValidReachesProvider | app/actions/auth.ts:55-68 | a form that passes reaches Supabase once, with exactly its values |
| AuthActions.SignInPasswordRule | app/actions/auth.ts:18-21 | sign-in refuses only an empty password ('Password is required'); any other reaches Supabase |
| AuthActions.SignUpEmailFirst | app/actions/auth.ts:12-16 | a malformed e-mail is reported whatever the other fields hold |
| AuthCallback.NextPath | app/auth/callback/route.ts:7 | `next` is the parameter when given and non-empty, otherwise `/dashboard` |
| AuthCallback.Get | app/auth/callback/route.ts:4-39 | a successful code exchange redirects to origin + next with no token check; otherwise the token path runs iff both `token_hash` and `type` are non-empty and redirects to origin + next on success; every other case goes to origin + `/auth/login?error=auth_failed` |
| AuthCallback.FailedExchangeFallsThrough | app/auth/callback/route.ts:14-35 | a code that fails to exchange leads to the same redirect as no code at all |
| SubscriptionsApi.EmbedFindsNamedProduct | app/api/subscriptions/route.ts:26-38 | with unique product ids, a row's `products` embed is present iff the product it names exists, and it is that product's columns |
| SubscriptionsApi.Listing | app/api/subscriptions/route.ts:24-40 | the answer is the query's rows in order, each with its product embed |
| SubscriptionsApi.ListingOnlyCallersRows | app/api/subscriptions/route.ts:39 | every listed row is a stored row of the caller |
| SubscriptionsApi.ListingHasEveryCallerRow | app/api/subscriptions/route.ts:39 | every stored row of the caller is listed |
| SubscriptionsApi.ListingNewestFirst | app/api/subscriptions/route.ts:40 | the listing is ordered by `created_at`, newest first |
| SubscriptionsApi.Get | app/api/subscriptions/route.ts:9-51 | 401 'Unauthorized' without a caller; 500 with the query's message on a query error; 500 'Internal server error' on a throw; otherwise 200 with the listing |

## Left out

- The Polar REST client (lib/polar/client.ts) is not part of this model. Its calls become outcome parameters: a return, or a throw.
- HMAC-SHA256, `JSON.parse` and zod's e-mail pattern are uninterpreted function parameters.
- `Math.random` is a nondeterministic choice. `new Date()` is a clock parameter.
- A read that answers `{ error }` is not modelled: every `select` returns the table's rows. A handler's throw is one outcome for the handler's whole run, whichever of its awaits raises it.
- `createClient()` or `auth.getUser()` throwing is modelled for the listing API and for the auth actions, where it is part of the provider outcome's throw, inside the same `try`. In the subscription actions those throws fall into the same `catch` as a Polar failure, and the model does not produce them separately.
- Concurrency and database-level uniqueness are not modelled. Each request is one atomic step. Event-id uniqueness is proved to hold for sequential deliveries instead.
- `Tables.OrderByDesc`: rows with equal `created_at` may come back in any order in PostgreSQL. The model fixes one order among them.
- Database triggers such as `updated_at` are not modelled, and `updated_at` is not a modelled column.
- `WebhookRoute.HandleSubscriptionCreated`: a throw is assumed to happen before the insert. A throw after the insert has been applied is not modelled.
- `WebhookRoute.UserByEmail`: an absent `customer_email` finds no user. The source would send the literal filter `email=eq.undefined`, which no stored e-mail matches.
- Ill-shaped payloads are not modelled: a parsed body is either a falsy value or a well-typed event. An authentic body without an `id`, with `data: null` or with an unknown status is left out. In the source such an event is stored first, and its handler may then throw on a missing field, answering 500 with the event row kept.
- `Utils.Truncate`: lengths and the slice count Unicode scalar values. The source counts UTF-16 code units, so an astral character counts twice and `slice` can split a surrogate pair.
- `AuthCallback.Get`: the exchange and the verification are booleans. The route has no `try`, so a throw from `createClient`, `exchangeCodeForSession` or `verifyOtp` escapes as a framework 500, and that case is not modelled.
- `Utf8.Encode`: strings are sequences of Unicode scalar values. Lone UTF-16 surrogates, which `Buffer.from` replaces with U+FFFD, are not modelled.
- `Zod.Passes`: string lengths count Unicode scalar values. zod counts UTF-16 code units, which differs outside the Basic Multilingual Plane.
- `Zod.IsUuid`: the UUID pattern is zod 3.22's: 8-4-4-4-12 hex digits in either case. Other zod versions check the version nibble.
- `Plans.CalculateYearlySavings`: computed with exact integer arithmetic. The rounding error of the source's floating-point division is not modelled, and the three non-finite answers (NaN, +Infinity, -Infinity) for a zero monthly price are one `None`.
- `formatCurrency`, `formatDate`, `cn` and `sleep` in lib/utils.ts are not part of this model. They rely on Intl, float division and tailwind-merge.
- `signOut` and `signInWithOAuth` in app/actions/auth.ts are not part of this model. They have no validation and only pass the provider's answer through.
- `revalidatePath`, console logging and the UI components are not part of this model.
- `syncSubscription` is imported by the billing page but not defined in the source, so there is nothing to model.
