/**
 * Credential selection done by `GithubPlatform.start`: which of the three
 * configuration keys decide how the Github client is built.
 */
module Credentials {
  import opened Wrappers
  import opened Configuration

  /** The four ways `start` can go once it has read the configuration. */
  datatype Resolution =
    | MissingPassword(username: string)             // `checkArgument` fails
    | WithPassword(username: string, password: string)
    | WithToken(token: string)
    | NoCredentials                                 // only a warning is logged

  /** `nonNull(s) && !s.isEmpty()` */
  predicate Filled(s: Option<string>)
  {
    s.Some? && s.value != ""
  }

  /**
   * The decision rule of `start`. The username branch is taken whenever the
   * username key is present, even with an empty value; the token branch needs
   * a present and non-empty token.
   */
  function Resolve(c: Config): (r: Resolution)
    ensures r.MissingPassword? <==>
              UsernameKey in c && (PasswordKey !in c || c[PasswordKey] == "")
    ensures r.WithPassword? <==>
              UsernameKey in c && PasswordKey in c && c[PasswordKey] != ""
    ensures r.WithToken? <==>
              UsernameKey !in c && OAuthTokenKey in c && c[OAuthTokenKey] != ""
    ensures r.NoCredentials? <==>
              UsernameKey !in c && (OAuthTokenKey !in c || c[OAuthTokenKey] == "")
    ensures (r.MissingPassword? || r.WithPassword?) ==> r.username == c[UsernameKey]
    ensures r.WithPassword? ==> r.password == c[PasswordKey]
    ensures r.WithToken? ==> r.token == c[OAuthTokenKey]
  {
    match GetString(c, UsernameKey)
    case Some(username) =>
      var password := GetString(c, PasswordKey);
      if Filled(password) then WithPassword(username, password.value) else MissingPassword(username)
    case None =>
      var token := GetString(c, OAuthTokenKey);
      if Filled(token) then WithToken(token.value) else NoCredentials
  }

  /** Only the three credential keys matter; every other key is ignored. */
  lemma ResolveReadsOnlyCredentialKeys(c: Config, c': Config)
    requires GetString(c, UsernameKey) == GetString(c', UsernameKey)
    requires GetString(c, PasswordKey) == GetString(c', PasswordKey)
    requires GetString(c, OAuthTokenKey) == GetString(c', OAuthTokenKey)
    ensures Resolve(c) == Resolve(c')
  {
  }

  /**
   * Once a username is configured the oauth token is never consulted: setting,
   * changing or removing it leaves the resolution as it was.
   */
  lemma TokenIgnoredWhenUsernamePresent(c: Config, token: Option<string>)
    requires UsernameKey in c
    ensures Resolve(WithKey(c, OAuthTokenKey, token)) == Resolve(c)
  {
  }

  /**
   * Without a username the password is never consulted: whatever it holds,
   * the resolution is decided by the token alone.
   */
  lemma PasswordIgnoredWithoutUsername(c: Config, password: Option<string>)
    requires UsernameKey !in c
    ensures Resolve(WithKey(c, PasswordKey, password)) == Resolve(c)
  {
  }
}
