/**
 * The signature helpers of lib/polar/webhooks.ts: which header carries the
 * signature, how it is checked, and how the body is parsed. HMAC-SHA256
 * (RFC 2104, hex digest) and `JSON.parse` are parameters of the model.
 */
module PolarWebhooks {
  import opened Wrappers
  import Utils
  import Utf8

  /** Request headers by lower-case name, as the Fetch API's `Headers.get` sees them. */
  type Headers = map<string, string>

  /** `Headers.get`: the header's value, or null when it is absent. */
  function HeaderGet(headers: Headers, name: string): Option<string>
  {
    if name in headers then Some(headers[name]) else None
  }

  /**
   * `extractWebhookSignature`: `get('x-polar-signature') || get('webhook-signature')`.
   * JavaScript's `||` falls through on null and on the empty string alike.
   */
  function ExtractWebhookSignature(headers: Headers): (r: Option<string>)
    ensures HeaderGet(headers, "x-polar-signature") != Some("") && HeaderGet(headers, "x-polar-signature").Some? ==>
              r == HeaderGet(headers, "x-polar-signature")
    ensures HeaderGet(headers, "x-polar-signature") in {None, Some("")} ==>
              r == HeaderGet(headers, "webhook-signature")
  {
    match HeaderGet(headers, "x-polar-signature")
    case Some(s) => if s != "" then Some(s) else HeaderGet(headers, "webhook-signature")
    case None => HeaderGet(headers, "webhook-signature")
  }

  /** A signature the route accepts as present: neither null nor empty. */
  predicate IsPresent(signature: Option<string>) {
    signature.Some? && signature.value != ""
  }

  /**
   * The route sees a present signature exactly when one of the two headers is
   * non-empty, and then it is the value of the first non-empty one; the
   * result is null only when both are empty-or-absent and the second is absent.
   */
  lemma SignaturePresence(headers: Headers)
    ensures IsPresent(ExtractWebhookSignature(headers)) <==>
              IsPresent(HeaderGet(headers, "x-polar-signature")) || IsPresent(HeaderGet(headers, "webhook-signature"))
    ensures ExtractWebhookSignature(headers).None? <==>
              !IsPresent(HeaderGet(headers, "x-polar-signature")) && "webhook-signature" !in headers
  {
  }

  /** `crypto.timingSafeEqual`: throws when the buffers differ in length. */
  function TimingSafeEqual(a: seq<Utf8.Byte>, b: seq<Utf8.Byte>): (r: Utils.Fallible<bool>)
    ensures r.Throws? <==> |a| != |b|
    ensures r.Ok? ==> (r.value <==> a == b)
  {
    if |a| != |b| then Utils.Throws("Input buffers must have the same byte length")
    else Utils.Ok(a == b)
  }

  /**
   * `verifyWebhookSignature`. `hmacHex(key, message)` stands for the hex
   * digest of HMAC-SHA256 keyed with the webhook secret. Every throw inside
   * the `try` (a missing secret, a length mismatch) is caught as `false`.
   */
  function VerifyWebhookSignature(payload: string, signature: string, env: Utils.Env,
                                  hmacHex: (string, string) -> string): (r: bool)
    ensures r <==> HasSecret(env) &&
                   Utf8.Encode(signature) == Utf8.Encode(hmacHex(env["POLAR_WEBHOOK_SECRET"], payload))
  {
    match Utils.GetEnvVar(env, "POLAR_WEBHOOK_SECRET")
    case Throws(_) => false
    case Ok(secret) =>
      var expected := hmacHex(secret, payload);
      match TimingSafeEqual(Utf8.Encode(signature), Utf8.Encode(expected))
      case Throws(_) => false
      case Ok(equal) => equal
  }

  /** Whether the webhook secret is set to a non-empty value. */
  predicate HasSecret(env: Utils.Env) {
    "POLAR_WEBHOOK_SECRET" in env && env["POLAR_WEBHOOK_SECRET"] != ""
  }

  /**
   * Verification succeeds exactly when the secret is configured and the
   * signature is the expected hex digest; a missing secret always fails.
   */
  lemma VerifyIffDigestMatches(payload: string, signature: string, env: Utils.Env,
                               hmacHex: (string, string) -> string)
    ensures VerifyWebhookSignature(payload, signature, env, hmacHex) <==>
              HasSecret(env) && signature == hmacHex(env["POLAR_WEBHOOK_SECRET"], payload)
  {
    if HasSecret(env) {
      var expected := hmacHex(env["POLAR_WEBHOOK_SECRET"], payload);
      if Utf8.Encode(signature) == Utf8.Encode(expected) {
        Utf8.EncodeInjective(signature, expected);
      }
    }
  }

  /** A signature whose encoding differs in length from the digest's is rejected, not thrown. */
  lemma LengthMismatchRejected(payload: string, signature: string, env: Utils.Env,
                               hmacHex: (string, string) -> string)
    requires HasSecret(env)
    requires |Utf8.Encode(signature)| != |Utf8.Encode(hmacHex(env["POLAR_WEBHOOK_SECRET"], payload))|
    ensures !VerifyWebhookSignature(payload, signature, env, hmacHex)
  {
  }

  /** What `JSON.parse` does with a text: a syntax error, or a value. */
  datatype JsonParse<T> = SyntaxError | Parsed(value: T)

  /** `parseWebhookPayload`: the parsed value, or null when `JSON.parse` throws. */
  function ParseWebhookPayload<T>(payload: string, jsonParse: string -> JsonParse<T>): (r: Option<T>)
    ensures r.None? <==> jsonParse(payload).SyntaxError?
    ensures r.Some? ==> r.value == jsonParse(payload).value
  {
    match jsonParse(payload)
    case SyntaxError => None
    case Parsed(v) => Some(v)
  }
}
