/**
 * The auth server actions (app/actions/auth.ts): each validates its form with
 * a zod schema, calls Supabase Auth, and maps the outcome to an
 * `ActionResult`, a redirect, or a generic error.
 */
module AuthActions {
  import opened Wrappers
  import opened Actions
  import Zod

  const InvalidEmail := "Invalid email address"
  const PasswordTooShort := "Password must be at least 8 characters"
  const NameTooShort := "Full name must be at least 2 characters"
  const PasswordRequired := "Password is required"
  const Unexpected := "An unexpected error occurred"

  function SignUpSchema(email: Zod.Field, password: Zod.Field, fullName: Zod.Field): (keys: seq<Zod.Key>)
    ensures |keys| == 3 && keys[0].value == email && keys[1].value == password && keys[2].value == fullName
  {
    [Zod.Key(email, [Zod.Email(InvalidEmail)]),
     Zod.Key(password, [Zod.MinLength(8, PasswordTooShort)]),
     Zod.Key(fullName, [Zod.MinLength(2, NameTooShort)])]
  }

  function SignInSchema(email: Zod.Field, password: Zod.Field): (keys: seq<Zod.Key>)
    ensures |keys| == 2 && keys[0].value == email && keys[1].value == password
  {
    [Zod.Key(email, [Zod.Email(InvalidEmail)]),
     Zod.Key(password, [Zod.MinLength(1, PasswordRequired)])]
  }

  function ResetPasswordSchema(email: Zod.Field): seq<Zod.Key> {
    [Zod.Key(email, [Zod.Email(InvalidEmail)])]
  }

  function UpdatePasswordSchema(password: Zod.Field): seq<Zod.Key> {
    [Zod.Key(password, [Zod.MinLength(8, PasswordTooShort)])]
  }

  /** How an action ends: it returns a result, or it throws. */
  datatype Outcome<T> = Returned(result: ActionResult<T>) | Rethrown(error: Thrown)

  predicate StartsWith(s: string, prefix: string) {
    |prefix| <= |s| && s[..|prefix|] == prefix
  }

  /** A Next.js redirect travelling as an exception: its digest begins with `NEXT_REDIRECT`. */
  predicate IsRedirect(error: Thrown) {
    error.digest.Some? && StartsWith(error.digest.value, "NEXT_REDIRECT")
  }

  /** What `redirect(path)` throws. */
  function RedirectTo(path: string): (e: Thrown)
    ensures IsRedirect(e)
  {
    Thrown(true, "NEXT_REDIRECT", Some("NEXT_REDIRECT;replace;" + path + ";307;"))
  }

  /** The `catch` of signUp, signIn and updatePassword for anything but a validation error. */
  function CatchRethrowingRedirects<T>(error: Thrown): (o: Outcome<T>)
    ensures IsRedirect(error) ==> o == Rethrown(error)
    ensures !IsRedirect(error) ==> o == Returned(Failed(Unexpected))
  {
    if IsRedirect(error) then Rethrown(error) else Returned(Failed(Unexpected))
  }

  /** A call to Supabase Auth, with the validated fields. */
  datatype AuthCall =
    | SignUpCall(email: string, password: string, fullName: string)
    | SignInCall(email: string, password: string)
    | ResetCall(email: string)
    | UpdateUserCall(password: string)

  /**
   * How the Supabase step ended: an `{ error }` answer, a data answer, or an
   * exception from creating the client or from the call.
   */
  datatype ProviderOutcome<D> = ProviderError(message: string) | ProviderData(data: D) | ProviderThrew(error: Thrown)

  /** The user part of the answer to `auth.signUp`. */
  datatype NewUser = NewUser(identities: Option<seq<string>>)

  /** `data.user?.identities?.length === 0`. */
  predicate NeedsEmailConfirmation(user: Option<NewUser>) {
    user.Some? && user.value.identities.Some? && |user.value.identities.value| == 0
  }

  /** The outcome of an action and the Supabase calls it made. */
  datatype Run<T> = Run(outcome: Outcome<T>, calls: seq<AuthCall>)

  /** The answer to an `{ error }` or thrown provider step, shared by the four actions. */
  function OnFailure<D, T>(provider: ProviderOutcome<D>, rethrowRedirects: bool): Outcome<T>
    requires !provider.ProviderData?
  {
    match provider
    case ProviderError(message) => Returned(Failed(message))
    case ProviderThrew(error) => if rethrowRedirects then CatchRethrowingRedirects(error) else Returned(Failed(Unexpected))
  }

  /** signUp; its data is `needsEmailConfirmation`. */
  function SignUp(email: Zod.Field, password: Zod.Field, fullName: Zod.Field, isEmail: string -> bool,
                  provider: ProviderOutcome<Option<NewUser>>): (r: Run<bool>)
    ensures var issue := Zod.FirstIssue(SignUpSchema(email, password, fullName), isEmail);
            (issue.Some? ==> r == Run(Returned(Failed(issue.value)), [])) &&
            (issue.None? ==> r.calls == [SignUpCall(email.value, password.value, fullName.value)])
    ensures provider.ProviderError? && r.calls != [] ==> r.outcome == Returned(Failed(provider.message))
    ensures r.outcome.Returned? && r.outcome.result.success ==>
              provider.ProviderData? && NeedsEmailConfirmation(provider.data) && r.outcome.result.data == Some(true)
    ensures provider.ProviderData? && !NeedsEmailConfirmation(provider.data) && r.calls != [] ==>
              r.outcome == Rethrown(RedirectTo("/dashboard"))
    ensures provider.ProviderData? && NeedsEmailConfirmation(provider.data) && r.calls != [] ==>
              r.outcome == Returned(Succeeded(Some(true)))
    ensures provider.ProviderThrew? && r.calls != [] ==> r.outcome == CatchRethrowingRedirects(provider.error)
    ensures r.outcome.Rethrown? ==> IsRedirect(r.outcome.error)
  {
    match Zod.FirstIssue(SignUpSchema(email, password, fullName), isEmail)
    case Some(message) => Run(Returned(Failed(message)), [])
    case None =>
      var calls := [SignUpCall(email.value, password.value, fullName.value)];
      match provider
      case ProviderData(user) =>
        if NeedsEmailConfirmation(user) then Run(Returned(Succeeded(Some(true))), calls)
        else Run(CatchRethrowingRedirects(RedirectTo("/dashboard")), calls)
      case _ => Run(OnFailure(provider, true), calls)
  }

  /** signIn: on success it redirects to the dashboard. */
  function SignIn(email: Zod.Field, password: Zod.Field, isEmail: string -> bool, provider: ProviderOutcome<()>): (r: Run<()>)
    ensures var issue := Zod.FirstIssue(SignInSchema(email, password), isEmail);
            (issue.Some? ==> r == Run(Returned(Failed(issue.value)), [])) &&
            (issue.None? ==> r.calls == [SignInCall(email.value, password.value)])
    ensures provider.ProviderError? && r.calls != [] ==> r.outcome == Returned(Failed(provider.message))
    ensures provider.ProviderData? && r.calls != [] ==> r.outcome == Rethrown(RedirectTo("/dashboard"))
    ensures provider.ProviderThrew? && r.calls != [] ==> r.outcome == CatchRethrowingRedirects(provider.error)
    ensures r.outcome.Returned? ==> !r.outcome.result.success
  {
    match Zod.FirstIssue(SignInSchema(email, password), isEmail)
    case Some(message) => Run(Returned(Failed(message)), [])
    case None =>
      var calls := [SignInCall(email.value, password.value)];
      match provider
      case ProviderData(_) => Run(CatchRethrowingRedirects(RedirectTo("/dashboard")), calls)
      case _ => Run(OnFailure(provider, true), calls)
  }

  /** resetPassword: its `catch` rethrows nothing. */
  function ResetPassword(email: Zod.Field, isEmail: string -> bool, provider: ProviderOutcome<()>): (r: Run<()>)
    ensures var issue := Zod.FirstIssue(ResetPasswordSchema(email), isEmail);
            (issue.Some? ==> r == Run(Returned(Failed(issue.value)), [])) &&
            (issue.None? ==> r.calls == [ResetCall(email.value)])
    ensures r.outcome.Returned?
    ensures r.outcome.result.success <==> r.calls != [] && provider.ProviderData?
    ensures provider.ProviderError? && r.calls != [] ==> r.outcome.result == Failed(provider.message)
    ensures provider.ProviderThrew? && r.calls != [] ==> r.outcome.result == Failed(Unexpected)
  {
    match Zod.FirstIssue(ResetPasswordSchema(email), isEmail)
    case Some(message) => Run(Returned(Failed(message)), [])
    case None =>
      var calls := [ResetCall(email.value)];
      match provider
      case ProviderData(_) => Run(Returned(Succeeded(None)), calls)
      case _ => Run(OnFailure(provider, false), calls)
  }

  /** updatePassword: on success it redirects to the dashboard. */
  function UpdatePassword(password: Zod.Field, provider: ProviderOutcome<()>): (r: Run<()>)
    ensures password.None? ==> r == Run(Returned(Failed(Zod.ExpectedString)), [])
    ensures password.Some? && |password.value| < 8 ==> r == Run(Returned(Failed(PasswordTooShort)), [])
    ensures password.Some? && |password.value| >= 8 ==> r.calls == [UpdateUserCall(password.value)]
    ensures provider.ProviderError? && r.calls != [] ==> r.outcome == Returned(Failed(provider.message))
    ensures provider.ProviderData? && r.calls != [] ==> r.outcome == Rethrown(RedirectTo("/dashboard"))
    ensures provider.ProviderThrew? && r.calls != [] ==> r.outcome == CatchRethrowingRedirects(provider.error)
  {
    var keys := UpdatePasswordSchema(password);
    assert keys[1..] == [];
    match Zod.FirstIssue(keys, Zod.NoEmail)
    case Some(message) => Run(Returned(Failed(message)), [])
    case None =>
      var calls := [UpdateUserCall(password.value)];
      match provider
      case ProviderData(_) => Run(CatchRethrowingRedirects(RedirectTo("/dashboard")), calls)
      case _ => Run(OnFailure(provider, true), calls)
  }

  // ---------------------------------------------------------------------------
  // Which message a form gets
  // ---------------------------------------------------------------------------

  /** With a well-formed e-mail, a sign-up password under 8 characters is refused before Supabase is called. */
  lemma SignUpShortPassword(email: Zod.Field, password: Zod.Field, fullName: Zod.Field, isEmail: string -> bool,
                            provider: ProviderOutcome<Option<NewUser>>)
    requires email.Some? && isEmail(email.value)
    requires password.Some? && |password.value| < 8
    ensures SignUp(email, password, fullName, isEmail, provider) == Run(Returned(Failed(PasswordTooShort)), [])
  {
    var keys := SignUpSchema(email, password, fullName);
    assert Zod.KeyIssue(keys[0], isEmail).None?;
    Zod.FirstIssueIsEarliest(keys, isEmail, 1);
  }

  /** With a well-formed e-mail and password, a full name under 2 characters is refused before Supabase is called. */
  lemma SignUpShortName(email: Zod.Field, password: Zod.Field, fullName: Zod.Field, isEmail: string -> bool,
                        provider: ProviderOutcome<Option<NewUser>>)
    requires email.Some? && isEmail(email.value)
    requires password.Some? && |password.value| >= 8
    requires fullName.Some? && |fullName.value| < 2
    ensures SignUp(email, password, fullName, isEmail, provider) == Run(Returned(Failed(NameTooShort)), [])
  {
    var keys := SignUpSchema(email, password, fullName);
    assert Zod.KeyIssue(keys[0], isEmail).None?;
    assert Zod.KeyIssue(keys[1], isEmail).None?;
    Zod.FirstIssueIsEarliest(keys, isEmail, 2);
  }

  /** A sign-up form whose three fields pass reaches Supabase with exactly those values. */
  lemma SignUpValidReachesProvider(email: Zod.Field, password: Zod.Field, fullName: Zod.Field, isEmail: string -> bool,
                                   provider: ProviderOutcome<Option<NewUser>>)
    requires email.Some? && isEmail(email.value)
    requires password.Some? && |password.value| >= 8
    requires fullName.Some? && |fullName.value| >= 2
    ensures SignUp(email, password, fullName, isEmail, provider).calls == [SignUpCall(email.value, password.value, fullName.value)]
  {
    var keys := SignUpSchema(email, password, fullName);
    assert Zod.KeyIssue(keys[0], isEmail).None?;
    assert Zod.KeyIssue(keys[1], isEmail).None?;
    assert Zod.KeyIssue(keys[2], isEmail).None?;
  }

  /** Sign-in asks only for a non-empty password: an empty one is refused, any other reaches Supabase. */
  lemma SignInPasswordRule(email: Zod.Field, password: Zod.Field, isEmail: string -> bool, provider: ProviderOutcome<()>)
    requires email.Some? && isEmail(email.value)
    requires password.Some?
    ensures |password.value| == 0 ==> SignIn(email, password, isEmail, provider) == Run(Returned(Failed(PasswordRequired)), [])
    ensures |password.value| >= 1 ==> SignIn(email, password, isEmail, provider).calls == [SignInCall(email.value, password.value)]
  {
    var keys := SignInSchema(email, password);
    assert Zod.KeyIssue(keys[0], isEmail).None?;
    if |password.value| == 0 {
      Zod.FirstIssueIsEarliest(keys, isEmail, 1);
    } else {
      assert Zod.KeyIssue(keys[1], isEmail).None?;
    }
  }

  /** The e-mail key comes first: a malformed e-mail is reported whatever the other fields hold. */
  lemma SignUpEmailFirst(email: Zod.Field, password: Zod.Field, fullName: Zod.Field, isEmail: string -> bool,
                         provider: ProviderOutcome<Option<NewUser>>)
    requires email.Some? && !isEmail(email.value)
    ensures SignUp(email, password, fullName, isEmail, provider) == Run(Returned(Failed(InvalidEmail)), [])
  {
    Zod.FirstIssueIsEarliest(SignUpSchema(email, password, fullName), isEmail, 0);
  }
}
