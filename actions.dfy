/**
 * What the server actions share: the `ActionResult` they return, the session
 * lookup they start with, and the way their `catch` blocks turn a thrown
 * value into a message.
 */
module Actions {
  import opened Wrappers

  /** `{ success, data?, error? }`. */
  datatype ActionResult<T> = ActionResult(success: bool, data: Option<T>, error: Option<string>)

  function Failed<T>(message: string): ActionResult<T> {
    ActionResult(false, None, Some(message))
  }

  function Succeeded<T>(data: Option<T>): ActionResult<T> {
    ActionResult(true, data, None)
  }

  /**
   * A value caught by a `catch` block: whether it is an `Error` instance,
   * its message, and the `digest` Next.js attaches to its control-flow errors.
   */
  datatype Thrown = Thrown(isError: bool, message: string, digest: Option<string>)

  /** `error instanceof Error ? error.message : fallback`. */
  function MessageOr(error: Thrown, fallback: string): (m: string)
    ensures error.isError ==> m == error.message
    ensures !error.isError ==> m == fallback
  {
    if error.isError then error.message else fallback
  }

  /** The answer of `supabase.auth.getUser()`: the session's user id, if any, and whether it reported an error. */
  datatype AuthLookup = AuthLookup(user: Option<string>, failed: bool)

  /** The caller an action acts for; `authError || !user` means there is none. */
  function Caller(auth: AuthLookup): (r: Option<string>)
    ensures r.Some? <==> !auth.failed && auth.user.Some?
    ensures r.Some? ==> r.value == auth.user.value
  {
    if auth.failed then None else auth.user
  }

  const NotAuthenticated := "Not authenticated"
}
