/**
 * The auth callback route (app/auth/callback/route.ts): where `GET` sends the
 * browser after an OAuth code exchange or an e-mail token check.
 */
module AuthCallback {
  import opened Wrappers

  /** The decoded query string: parameter name to its first value. */
  type Query = map<string, string>

  /** `searchParams.get(name)`. */
  function Param(query: Query, name: string): Option<string> {
    if name in query then Some(query[name]) else None
  }

  /** A parameter JavaScript treats as true: present and not empty. */
  predicate Given(p: Option<string>) {
    p.Some? && p.value != ""
  }

  const DefaultNext := "/dashboard"
  const FailurePath := "/auth/login?error=auth_failed"

  /** `searchParams.get('next') || '/dashboard'`. */
  function NextPath(query: Query): (next: string)
    ensures Given(Param(query, "next")) ==> next == query["next"]
    ensures !Given(Param(query, "next")) ==> next == DefaultNext
  {
    var p := Param(query, "next");
    if Given(p) then p.value else DefaultNext
  }

  /** A call to Supabase Auth. */
  datatype CallbackCall = ExchangeCode(code: string) | VerifyOtp(otpType: string, tokenHash: string)

  /** The redirect target and the calls made on the way. */
  datatype CallbackRun = CallbackRun(location: string, calls: seq<CallbackCall>)

  /** Whether the code path signs the user in. */
  predicate CodeSucceeds(query: Query, exchangeOk: bool) {
    Given(Param(query, "code")) && exchangeOk
  }

  /** Whether the token path runs: both `token_hash` and `type` given. */
  predicate TokenPathRuns(query: Query) {
    Given(Param(query, "token_hash")) && Given(Param(query, "type"))
  }

  /**
   * `GET`: `exchangeOk` and `verifyOk` say whether the two Supabase calls
   * return without an error.
   */
  function Get(origin: string, query: Query, exchangeOk: bool, verifyOk: bool): (r: CallbackRun)
    ensures CodeSucceeds(query, exchangeOk) ==> r == CallbackRun(origin + NextPath(query), [ExchangeCode(query["code"])])
    ensures !CodeSucceeds(query, exchangeOk) && TokenPathRuns(query) && verifyOk ==> r.location == origin + NextPath(query)
    ensures !CodeSucceeds(query, exchangeOk) && !(TokenPathRuns(query) && verifyOk) ==> r.location == origin + FailurePath
    ensures r.calls ==
              (if Given(Param(query, "code")) then [ExchangeCode(query["code"])] else []) +
              (if !CodeSucceeds(query, exchangeOk) && TokenPathRuns(query) then [VerifyOtp(query["type"], query["token_hash"])] else [])
  {
    var next := NextPath(query);
    var code := Param(query, "code");
    if Given(code) && exchangeOk then CallbackRun(origin + next, [ExchangeCode(code.value)])
    else
      var tried := if Given(code) then [ExchangeCode(code.value)] else [];
      var tokenHash := Param(query, "token_hash");
      var otpType := Param(query, "type");
      if Given(tokenHash) && Given(otpType) then
        var calls := tried + [VerifyOtp(otpType.value, tokenHash.value)];
        CallbackRun(if verifyOk then origin + next else origin + FailurePath, calls)
      else CallbackRun(origin + FailurePath, tried)
  }

  /**
   * A code that fails to exchange is as good as no code: the redirect is the
   * one the token path alone would give.
   */
  lemma FailedExchangeFallsThrough(origin: string, query: Query, verifyOk: bool)
    requires Given(Param(query, "code"))
    ensures Get(origin, query, false, verifyOk).location == Get(origin, query - {"code"}, false, verifyOk).location
  {
    var without := query - {"code"};
    assert Param(without, "next") == Param(query, "next");
    assert Param(without, "token_hash") == Param(query, "token_hash");
    assert Param(without, "type") == Param(query, "type");
  }
}
