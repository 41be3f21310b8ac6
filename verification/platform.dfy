/**
 * The `GithubPlatform` object as far as its Github client goes: the
 * `githubClient` field, `start`, which is the only writer of that field, and
 * the `getGithubClient` accessor.
 */
module Platform {
  import opened Wrappers
  import opened Configuration
  import opened Credentials
  import opened Validation

  /** The credentials an `RtGithub` client is built from. */
  datatype Credential = Basic(username: string, password: string) | OAuth(token: string)

  /** An `RtGithub` client; its network behaviour is abstract (see `Start`'s `login` parameter). */
  datatype Client = RtGithub(credential: Credential)

  /** The platform's client handle: `None` is a `null` `githubClient` field. */
  datatype GithubPlatform = GithubPlatform(githubClient: Option<Client>)

  /** A platform before `start`: the field holds `null`. */
  const Fresh: GithubPlatform := GithubPlatform(None)

  /** What `start` throws. */
  datatype StartError =
    | IllegalArgument(username: string, key: string)   // from `checkArgument`
    | Xatkit(exception: XatkitException)               // from `checkGithubClient`

  /** The platform after `start`, and whether `start` returned or threw. */
  datatype Started = Started(platform: GithubPlatform, outcome: Outcome<StartError>)

  /** `checkGithubClient` seen from `start`: its exception propagates out of `start`. */
  function Validated(outcome: LoginOutcome): Outcome<StartError>
  {
    match CheckGithubClient(outcome)
    case Pass => Pass
    case Fail(e) => Fail(Xatkit(e))
  }

  /** The client `start` builds for a resolution, if it builds one. */
  function ClientFor(res: Resolution): (r: Option<Client>)
    ensures r.Some? <==> res.WithPassword? || res.WithToken?
    ensures res.WithPassword? ==> r.value.credential == Basic(res.username, res.password)
    ensures res.WithToken? ==> r.value.credential == OAuth(res.token)
  {
    match res
    case WithPassword(u, p) => Some(RtGithub(Basic(u, p)))
    case WithToken(t) => Some(RtGithub(OAuth(t)))
    case _ => None
  }

  /**
   * `start(xatkitCore, configuration)`. `login` stands for the remote
   * self-login of a client. A built client is stored in the field BEFORE it
   * is validated, so a rejected client stays stored although `start` throws.
   */
  function Start(p: GithubPlatform, c: Config, login: Client -> LoginOutcome): (r: Started)
    // a username without a usable password is an argument error, and nothing is assigned
    ensures r.outcome.Fail? && r.outcome.error.IllegalArgument? <==> Resolve(c).MissingPassword?
    ensures Resolve(c).MissingPassword? ==>
              r == Started(p, Fail(IllegalArgument(c[UsernameKey], PasswordKey)))
    // with no credentials at all start returns normally and the field is left alone
    ensures Resolve(c).NoCredentials? ==> r == Started(p, Pass)
    // a built client is stored whatever its validation says
    ensures ClientFor(Resolve(c)).Some? ==> r.platform.githubClient == ClientFor(Resolve(c))
    // start returns normally exactly when no credentials were given or the built client logs in
    ensures r.outcome.Pass? <==>
              Resolve(c).NoCredentials? || (ClientFor(Resolve(c)).Some? && login(ClientFor(Resolve(c)).value).LoggedIn?)
    // a failed validation is rethrown as the exception `checkGithubClient` raised
    ensures r.outcome.Fail? && r.outcome.error.Xatkit? ==>
              ClientFor(Resolve(c)).Some? && r.outcome == Validated(login(ClientFor(Resolve(c)).value))
  {
    var res := Resolve(c);
    match res
    case MissingPassword(username) =>
      Started(p, Fail(IllegalArgument(username, PasswordKey)))
    case NoCredentials =>
      Started(p, Pass)
    case _ =>
      var client := ClientFor(res).value;
      var p' := p.(githubClient := Some(client));
      Started(p', Validated(login(client)))
  }

  const ClientMissingMessage: string :=
    "Cannot access the Github client, make sure it has been initialized correctly"

  /** `getGithubClient()`: the stored client, or a `XatkitException` when the field is `null`. */
  function GetGithubClient(p: GithubPlatform): (r: Result<Client, XatkitException>)
    ensures r.Success? <==> p.githubClient.Some?
    ensures r.Success? ==> Some(r.value) == p.githubClient
    ensures r.Failure? ==> r.error == XatkitException(Some(ClientMissingMessage), None)
  {
    match p.githubClient
    case Some(client) => Success(client)
    case None => Failure(XatkitException(Some(ClientMissingMessage), None))
  }

  /**
   * A username (even an empty one) with an absent or empty password makes
   * `start` throw `IllegalArgumentException`, whatever the oauth token holds.
   */
  lemma UsernameWithoutPasswordIsRejected(p: GithubPlatform, c: Config, login: Client -> LoginOutcome, token: Option<string>)
    requires UsernameKey in c
    requires PasswordKey !in c || c[PasswordKey] == ""
    ensures Start(p, WithKey(c, OAuthTokenKey, token), login) ==
              Started(p, Fail(IllegalArgument(c[UsernameKey], PasswordKey)))
  {
  }

  /**
   * A username with a non-empty password yields a client built from that
   * pair, and the oauth-token key has no influence on anything `start` does.
   */
  lemma UsernamePasswordWinsOverToken(p: GithubPlatform, c: Config, login: Client -> LoginOutcome, token: Option<string>)
    requires UsernameKey in c && PasswordKey in c && c[PasswordKey] != ""
    ensures Start(p, WithKey(c, OAuthTokenKey, token), login) == Start(p, c, login)
    ensures Start(p, c, login).platform.githubClient ==
              Some(RtGithub(Basic(c[UsernameKey], c[PasswordKey])))
  {
  }

  /** Without a username, a non-empty token yields a client built from the token alone. */
  lemma TokenUsedWithoutUsername(p: GithubPlatform, c: Config, login: Client -> LoginOutcome, password: Option<string>)
    requires UsernameKey !in c && OAuthTokenKey in c && c[OAuthTokenKey] != ""
    ensures Start(p, WithKey(c, PasswordKey, password), login) == Start(p, c, login)
    ensures Start(p, c, login).platform.githubClient == Some(RtGithub(OAuth(c[OAuthTokenKey])))
    ensures Start(p, c, login).outcome == Validated(login(RtGithub(OAuth(c[OAuthTokenKey]))))
  {
  }

  /**
   * Neither a username nor a non-empty token: `start` returns normally, only
   * warns, and a fresh platform keeps a `null` client, so `getGithubClient` throws.
   */
  lemma NoCredentialsOnlyWarns(c: Config, login: Client -> LoginOutcome)
    requires UsernameKey !in c && (OAuthTokenKey !in c || c[OAuthTokenKey] == "")
    ensures Start(Fresh, c, login) == Started(Fresh, Pass)
    ensures GetGithubClient(Start(Fresh, c, login).platform).Failure?
  {
  }

  /**
   * Validation success changes nothing beyond the assignment `start` already
   * made: the stored client is the one built from the configuration.
   */
  lemma SuccessfulStartExposesBuiltClient(p: GithubPlatform, c: Config, login: Client -> LoginOutcome)
    requires ClientFor(Resolve(c)).Some?
    requires login(ClientFor(Resolve(c)).value).LoggedIn?
    ensures Start(p, c, login) == Started(GithubPlatform(ClientFor(Resolve(c))), Pass)
    ensures GetGithubClient(Start(p, c, login).platform) == Success(ClientFor(Resolve(c)).value)
  {
  }

  /**
   * The code assigns the field before validating it: when the self-login
   * fails, `start` throws and yet the rejected client stays stored, and
   * `getGithubClient` hands it out.
   */
  lemma RejectedClientStaysStored(p: GithubPlatform, c: Config, login: Client -> LoginOutcome)
    requires ClientFor(Resolve(c)).Some?
    requires !login(ClientFor(Resolve(c)).value).LoggedIn?
    ensures Start(p, c, login).outcome.Fail?
    ensures Start(p, c, login).outcome.error.Xatkit?
    ensures GetGithubClient(Start(p, c, login).platform) == Success(ClientFor(Resolve(c)).value)
  {
  }

  /**
   * The field comment's claim — the client is `null` when authentication
   * failed — does not hold of the code: a rejected oauth token on a fresh
   * platform leaves a non-null client.
   */
  lemma FieldCommentDoesNotHold()
    ensures var r := Start(Fresh, map[OAuthTokenKey := "bad-token"], _ => AuthRejected("401"));
            r.outcome.Fail? && r.platform.githubClient.Some?
  {
  }

  /** Running `start` twice with the same configuration and remote behaves as running it once. */
  lemma StartIdempotent(p: GithubPlatform, c: Config, login: Client -> LoginOutcome)
    ensures Start(Start(p, c, login).platform, c, login) == Start(p, c, login)
  {
  }
}
