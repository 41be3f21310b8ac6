/**
 * `checkGithubClient`: the self-login call that validates a freshly built
 * client, and how its failures become `XatkitException`s.
 */
module Validation {
  import opened Wrappers

  /** What `githubClient.users().self().login()` can do; the call itself is a network round trip. */
  datatype LoginOutcome =
    | LoggedIn(login: string)
    | IOFailure(detail: string)      // an `IOException` is thrown
    | AuthRejected(detail: string)   // the client throws an `AssertionError` on a refused answer

  /** The Java throwables the platform wraps. */
  datatype Cause = IOException(detail: string) | AssertionError(detail: string)

  /**
   * A `XatkitException`; `message` is `None` when the exception was built from
   * its cause alone (`new XatkitException(e)`).
   */
  datatype XatkitException = XatkitException(message: Option<string>, cause: Option<Cause>)

  const CredentialsMessage: string := "Cannot access the Github API, please check your credentials"

  /** The throwable the self-login call raised, if any. */
  function CauseOf(outcome: LoginOutcome): Option<Cause>
  {
    match outcome
    case LoggedIn(_) => None
    case IOFailure(d) => Some(IOException(d))
    case AuthRejected(d) => Some(AssertionError(d))
  }

  /**
   * Validation returns normally exactly when the self-login succeeds; any
   * failure is rethrown as a `XatkitException` whose cause is the original
   * throwable, and only a credential rejection adds its own message.
   */
  function CheckGithubClient(outcome: LoginOutcome): (r: Outcome<XatkitException>)
    ensures r.Pass? <==> outcome.LoggedIn?
    ensures r.Fail? ==> r.error.cause == CauseOf(outcome) && r.error.cause.Some?
    ensures r.Fail? ==> (r.error.message.Some? <==> outcome.AuthRejected?)
    ensures r.Fail? && r.error.message.Some? ==> r.error.message.value == CredentialsMessage
  {
    match outcome
    case LoggedIn(_) => Pass
    case IOFailure(d) => Fail(XatkitException(None, Some(IOException(d))))
    case AuthRejected(d) => Fail(XatkitException(Some(CredentialsMessage), Some(AssertionError(d))))
  }
}
