/** The part of the Apache configuration the Github platform reads: three optional string keys. */
module Configuration {
  import opened Wrappers

  /** Key holding the Github login. */
  const UsernameKey: string := "xatkit.github.username"

  /** Key holding the password associated with the login. */
  const PasswordKey: string := "xatkit.github.password"

  /** Key holding an oauth token, the alternative to a login/password pair. */
  const OAuthTokenKey: string := "xatkit.github.oauth.token"

  /** A configuration whose values are all strings; a key that is absent reads as `null`. */
  type Config = map<string, string>

  /** `configuration.getString(key)`: the stored string, or `null` when the key is absent. */
  function GetString(c: Config, key: string): Option<string>
  {
    if key in c then Some(c[key]) else None
  }

  /** The configuration `c` with `key` set to `v`, or removed when `v` is `null`. */
  function WithKey(c: Config, key: string, v: Option<string>): (c': Config)
    ensures GetString(c', key) == v
    ensures forall k :: k != key ==> GetString(c', k) == GetString(c, k)
  {
    match v
    case Some(s) => c[key := s]
    case None => c - {key}
  }
}
