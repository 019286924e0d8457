/**
 * The general helpers of lib/utils.ts that carry behaviour: the two response
 * builders, environment lookup, random identifiers and text truncation.
 */
module Utils {
  import opened Wrappers

  // ---------------------------------------------------------------------------
  // Responses
  // ---------------------------------------------------------------------------

  /** The JSON body of a route response: an error envelope or the data itself. */
  datatype Body<T> = ErrorBody(error: string, details: Option<string>) | DataBody(data: T)

  /** What `Response.json(body, { status })` produces. */
  datatype Response<T> = Response(status: int, body: Body<T>)

  /** `createErrorResponse`: `{ error, details }` with status 400 unless given. */
  function CreateErrorResponse<T>(message: string, status: int := 400, details: Option<string> := None): Response<T>
  {
    Response(status, ErrorBody(message, details))
  }

  /** `createSuccessResponse`: the data as body, with status 200 unless given. */
  function CreateSuccessResponse<T>(data: T, status: int := 200): Response<T>
  {
    Response(status, DataBody(data))
  }

  /** The defaults of the two builders, and that an error keeps its message. */
  lemma ResponseDefaults<T>(message: string, data: T)
    ensures CreateErrorResponse<T>(message).status == 400
    ensures CreateErrorResponse<T>(message).body.error == message
    ensures CreateErrorResponse<T>(message).body.details == None
    ensures CreateSuccessResponse(data).status == 200
    ensures CreateSuccessResponse(data).body == DataBody(data)
  {
  }

  // ---------------------------------------------------------------------------
  // Environment
  // ---------------------------------------------------------------------------

  /** The process environment: variable name to value. */
  type Env = map<string, string>

  /** A value, or the message of the `Error` that the source throws instead. */
  datatype Fallible<T> = Ok(value: T) | Throws(message: string)

  /**
   * `getEnvVar`: an unset or empty variable throws
   * `Missing environment variable: <key>`.
   */
  function GetEnvVar(env: Env, key: string): (r: Fallible<string>)
    ensures r.Ok? <==> key in env && env[key] != ""
    ensures r.Ok? ==> r.value == env[key] && r.value != ""
    ensures r.Throws? ==> r.message == "Missing environment variable: " + key
  {
    if key in env && env[key] != "" then Ok(env[key])
    else Throws("Missing environment variable: " + key)
  }

  // ---------------------------------------------------------------------------
  // Identifiers
  // ---------------------------------------------------------------------------

  /** The 62 characters `generateId` draws from. */
  const IdAlphabet: string := "ABCDEFGHIJKLMNOPQRSTUVWXYZabcdefghijklmnopqrstuvwxyz0123456789"

  /**
   * `generateId`: `length` characters (16 by default), each chosen at random
   * from IdAlphabet. The random draw is a nondeterministic choice; a negative
   * length runs the loop zero times.
   */
  method GenerateId(length: int := 16) returns (id: string)
    ensures |id| == if length < 0 then 0 else length
    ensures forall k :: 0 <= k < |id| ==> id[k] in IdAlphabet
  {
    id := "";
    var i := 0;
    while i < length
      invariant 0 <= i <= (if length < 0 then 0 else length)
      invariant |id| == i
      invariant forall k :: 0 <= k < |id| ==> id[k] in IdAlphabet
    {
      // Math.floor(Math.random() * chars.length) lies in [0, 62)
      var pick :| 0 <= pick < |IdAlphabet|;
      id := id + [IdAlphabet[pick]];
      i := i + 1;
    }
  }

  // ---------------------------------------------------------------------------
  // Truncation
  // ---------------------------------------------------------------------------

  /**
   * The end index `String.prototype.slice(0, end)` uses: a negative end counts
   * back from the length, and the index is clamped to [0, |text|].
   */
  function SliceEnd(len: nat, end: int): (k: nat)
    ensures k <= len
    ensures 0 <= end <= len ==> k == end
    ensures end > len ==> k == len
    ensures end < 0 ==> k == if len + end < 0 then 0 else len + end
  {
    if end < 0 then (if len + end < 0 then 0 else len + end)
    else if end > len then len
    else end
  }

  /** `truncate`: text longer than maxLength keeps its prefix and gains "...". */
  function Truncate(text: string, maxLength: int): (r: string)
    ensures |text| <= maxLength ==> r == text
    ensures 0 <= maxLength < |text| ==> r == text[..maxLength] + "..." && |r| == maxLength + 3
    ensures maxLength < 0 ==>
              var kept := if |text| + maxLength < 0 then 0 else |text| + maxLength;
              r == text[..kept] + "..." && |r| == kept + 3
  {
    if |text| <= maxLength then text
    else text[..SliceEnd(|text|, maxLength)] + "..."
  }

  /** For a non-negative bound, truncating twice is the same as truncating once. */
  lemma TruncateIdempotent(text: string, maxLength: int)
    requires maxLength >= 0
    ensures Truncate(Truncate(text, maxLength), maxLength) == Truncate(text, maxLength)
  {
    if |text| > maxLength {
      var once := Truncate(text, maxLength);
      assert once[..maxLength] == text[..maxLength];
    }
  }
}
