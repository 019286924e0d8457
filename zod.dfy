/**
 * The part of zod the actions use: `z.object({...}).parse(rawData)` over
 * string fields read from a form, and the message of the first issue it
 * reports (`error.errors[0].message`).
 */
module Zod {
  import opened Wrappers

  /** `formData.get(name) as string`: null when the form has no such field. */
  type Field = Option<string>

  /** The message of `z.string()` given null. */
  const ExpectedString := "Expected string, received null"

  const InvalidUuid := "Invalid uuid"

  /** One refinement chained after `z.string()`. */
  datatype Check = MinLength(n: nat, message: string) | Email(message: string) | Uuid

  function CheckMessage(c: Check): string {
    match c
    case MinLength(_, message) => message
    case Email(message) => message
    case Uuid => InvalidUuid
  }

  predicate IsHexDigit(c: char) {
    '0' <= c <= '9' || 'a' <= c <= 'f' || 'A' <= c <= 'F'
  }

  /** Five groups of 8, 4, 4, 4 and 12 hex digits joined by `-`, in either case. */
  predicate IsUuid(s: string) {
    |s| == 36 &&
    forall i :: 0 <= i < 36 ==> if i in {8, 13, 18, 23} then s[i] == '-' else IsHexDigit(s[i])
  }

  /** Whether a string passes one check; the e-mail pattern is a parameter. */
  predicate Passes(c: Check, s: string, isEmail: string -> bool) {
    match c
    case MinLength(n, _) => |s| >= n
    case Email(_) => isEmail(s)
    case Uuid => IsUuid(s)
  }

  /** The e-mail pattern passed for schemas with no `.email()` check, where it is never consulted. */
  function NoEmail(s: string): bool { false }

  /** One key of an object schema: the form value and the checks of its `z.string()`. */
  datatype Key = Key(value: Field, checks: seq<Check>)

  /** The first message of the checks a string fails, in the order they are chained. */
  function FirstFailed(checks: seq<Check>, s: string, isEmail: string -> bool): (r: Option<string>)
    ensures r.None? <==> forall k :: 0 <= k < |checks| ==> Passes(checks[k], s, isEmail)
    ensures r.Some? ==> exists k :: 0 <= k < |checks| && !Passes(checks[k], s, isEmail) && r.value == CheckMessage(checks[k])
  {
    if checks == [] then None
    else if !Passes(checks[0], s, isEmail) then Some(CheckMessage(checks[0]))
    else
      var rest := FirstFailed(checks[1..], s, isEmail);
      assert forall k :: 1 <= k < |checks| ==> checks[k] == checks[1..][k - 1];
      rest
  }

  /** The first issue of one key: null fails the type test, which stops its checks. */
  function KeyIssue(key: Key, isEmail: string -> bool): (r: Option<string>)
    ensures key.value.None? ==> r == Some(ExpectedString)
    ensures key.value.Some? ==> r == FirstFailed(key.checks, key.value.value, isEmail)
  {
    match key.value
    case None => Some(ExpectedString)
    case Some(s) => FirstFailed(key.checks, s, isEmail)
  }

  /**
   * `error.errors[0].message` of a failed parse, or None when the parse
   * succeeds. Issues are reported key by key in the schema's order.
   */
  function FirstIssue(keys: seq<Key>, isEmail: string -> bool): (r: Option<string>)
    ensures r.None? <==> forall k :: 0 <= k < |keys| ==> KeyIssue(keys[k], isEmail).None?
    ensures r.None? ==> forall k :: 0 <= k < |keys| ==> keys[k].value.Some?
  {
    if keys == [] then None
    else if KeyIssue(keys[0], isEmail).Some? then KeyIssue(keys[0], isEmail)
    else
      var rest := FirstIssue(keys[1..], isEmail);
      assert forall k :: 1 <= k < |keys| ==> keys[k] == keys[1..][k - 1];
      rest
  }

  /** When every key before the first failing one passes, the parse reports that key's first message. */
  lemma {:induction false} FirstIssueIsEarliest(keys: seq<Key>, isEmail: string -> bool, k: nat)
    requires k < |keys|
    requires forall j :: 0 <= j < k ==> KeyIssue(keys[j], isEmail).None?
    requires KeyIssue(keys[k], isEmail).Some?
    ensures FirstIssue(keys, isEmail) == KeyIssue(keys[k], isEmail)
  {
    if k > 0 {
      assert KeyIssue(keys[0], isEmail).None?;
      assert forall j :: 0 <= j < k - 1 ==> keys[1..][j] == keys[j + 1];
      FirstIssueIsEarliest(keys[1..], isEmail, k - 1);
    }
  }
}
