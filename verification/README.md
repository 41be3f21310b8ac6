# Github platform: credential resolution and client lifecycle

A Dafny model of the part of Xatkit's `GithubPlatform` that has logic of its own:
- how `start` picks credentials from the configuration (username/password, oauth token, or none);
- how `checkGithubClient` turns the outcome of the remote self-login into exceptions;
- how the `githubClient` field behaves. `start` is the only writer of that field, and `getGithubClient` reads it.

The five public operations appear only as a facade: build the action, delegate to the runtime, cast the result.

Modules, one per concern:
- `Wrappers`: `Option` stands for a nullable reference. `Result` and `Outcome` stand for a call that returns normally or throws.
- `Configuration`: the three key constants. The configuration is a `map<string, string>`, and an absent key reads as `null`.
- `Credentials`: `Resolve`, the precedence rule of `start`, over the four possible resolutions.
- `Validation`: `CheckGithubClient` over an abstract `LoginOutcome` (`LoggedIn`, `IOFailure`, `AuthRejected`).
- `Platform`: the platform record holding `Option<Client>`, plus `Start` and `GetGithubClient`.
- `Operations`: `Invoke`, the shared shape of `assignUser`, `commentIssue`, `getIssue`, `openIssue` and `setLabel`.
- `Lifecycle`: any sequence of `start` and operation calls on one platform.

Precedence is deliberate in the code. A configured username always wins, and the oauth token is then never read, even when the password is missing. The username branch is taken for any present username, including the empty string. The token branch needs a present, non-empty token.

Where the code and its own documentation disagree, the model follows the code. The comment on the `githubClient` field (GithubPlatform.java:69-70) says the client is `null` when authentication failed. The Javadoc of `getGithubClient` (GithubPlatform.java:223-225) promises a `XatkitException` when authentication failed. The code stores the new client before validating it. So after a rejected login, `start` throws, the field stays non-null, and `getGithubClient` returns the rejected client instead of throwing. `Platform.RejectedClientStaysStored` proves this for all inputs. `Platform.FieldCommentDoesNotHold` shows it on one concrete input.

## Model

| member | source | states |
|---|---|---|
| Credentials.Resolve | runtime/src/main/java/com/xatkit/plugins/github/platform/GithubPlatform.java:88-111 | Each of the four outcomes is characterised, in both directions, by which keys are present and non-empty. Missing password ⟺ username present and password absent or empty. Password pair ⟺ username present and password non-empty. Token ⟺ no username and token non-empty. No credentials ⟺ no username and token absent or empty. The values carried are the configured strings. |
| Credentials.ResolveReadsOnlyCredentialKeys | runtime/src/main/java/com/xatkit/plugins/github/platform/GithubPlatform.java:90-101 | Two configurations that agree on the three credential keys resolve identically. |
| Credentials.TokenIgnoredWhenUsernamePresent | runtime/src/main/java/com/xatkit/plugins/github/platform/GithubPlatform.java:36-37 | When a username is configured, setting, changing or removing the oauth token does not change the resolution. |
| Credentials.PasswordIgnoredWithoutUsername | runtime/src/main/java/com/xatkit/plugins/github/platform/GithubPlatform.java:100-104 | Without a username, the password key has no influence; the token alone decides. |
| Validation.CheckGithubClient | runtime/src/main/java/com/xatkit/plugins/github/platform/GithubPlatform.java:207-216 | Of the three modelled login outcomes: returns normally exactly when the self-login succeeds. Each failure is a XatkitException whose cause is the original IOException or AssertionError. Only a credential rejection carries a message, "Cannot access the Github API, please check your credentials". |
| Platform.ClientFor | runtime/src/main/java/com/xatkit/plugins/github/platform/GithubPlatform.java:98-103 | A client is built exactly for the password and token resolutions, from exactly those credentials. |
| Platform.Start | runtime/src/main/java/com/xatkit/plugins/github/platform/GithubPlatform.java:88-112 | An IllegalArgument error naming the username and the password key occurs exactly on a missing password, and then nothing is assigned. No credentials means a normal return with the platform unchanged. A built client is stored whatever validation says. Start returns normally exactly when there are no credentials or the built client logs in. A validation failure is rethrown as checkGithubClient raised it. |
| Platform.GetGithubClient | runtime/src/main/java/com/xatkit/plugins/github/platform/GithubPlatform.java:227-233 | Succeeds exactly when the field is non-null and then returns the stored client. Otherwise it throws a XatkitException carrying the "make sure it has been initialized correctly" message. |
| Platform.UsernameWithoutPasswordIsRejected | runtime/src/main/java/com/xatkit/plugins/github/platform/GithubPlatform.java:90-97 | A present username, even empty, with an absent or empty password makes start throw IllegalArgumentException and leaves the platform unchanged, whatever the token holds. |
| Platform.UsernamePasswordWinsOverToken | runtime/src/main/java/com/xatkit/plugins/github/platform/GithubPlatform.java:90-99 | A username with a non-empty password stores the client built from that pair, and start's whole behaviour is independent of the token key. |
| Platform.TokenUsedWithoutUsername | runtime/src/main/java/com/xatkit/plugins/github/platform/GithubPlatform.java:100-104 | Without a username and with a non-empty token, start stores the client built from the token alone. Its outcome is that client's validation, and the password key has no influence. |
| Platform.NoCredentialsOnlyWarns | runtime/src/main/java/com/xatkit/plugins/github/platform/GithubPlatform.java:105-110 | With neither a username nor a non-empty token, start on a fresh platform returns normally and leaves the client null. A later getGithubClient then throws. |
| Platform.SuccessfulStartExposesBuiltClient | runtime/src/main/java/com/xatkit/plugins/github/platform/GithubPlatform.java:209-211 | If the built client logs in, start returns normally and getGithubClient yields exactly that client. |
| Platform.RejectedClientStaysStored | runtime/src/main/java/com/xatkit/plugins/github/platform/GithubPlatform.java:98-104 | If the built client fails validation, start throws a XatkitException, yet the field holds that client and getGithubClient returns it. |
| Platform.FieldCommentDoesNotHold | runtime/src/main/java/com/xatkit/plugins/github/platform/GithubPlatform.java:69-70 | Counterexample to the field comment: on a fresh platform, a rejected oauth token "bad-token" makes start throw and still leaves the client non-null. |
| Platform.StartIdempotent | runtime/src/main/java/com/xatkit/plugins/github/platform/GithubPlatform.java:88-112 | A second start with the same configuration and remote behaviour gives the same platform and outcome as the first. |
| Operations.Cast | runtime/src/main/java/com/xatkit/plugins/github/platform/GithubPlatform.java:126 | A Java reference cast succeeds exactly on null or an instance of the target type and returns the value unchanged. Otherwise it throws ClassCastException naming the target. |
| Operations.Invoke | runtime/src/main/java/com/xatkit/plugins/github/platform/GithubPlatform.java:123-194 | An operation returns normally only with the runtime's own value, and that value is null or of the method's declared type. A runtime failure propagates unchanged. A mistyped runtime value throws ClassCastException naming the declared return type, and only a mistyped value does. A null or well-typed runtime value is returned unchanged. |
| Operations.InvokeReturnsWellTypedValues | runtime/src/main/java/com/xatkit/plugins/github/platform/GithubPlatform.java:154-158 | When the runtime returns normally, the operation returns normally exactly when that value is null or has the declared return type. |
| Lifecycle.RunSnoc | runtime/src/main/java/com/xatkit/plugins/github/platform/GithubPlatform.java:74 | Running one more call after a sequence equals stepping the platform that the sequence produced. |
| Lifecycle.RunKeepsLastBuiltClient | runtime/src/main/java/com/xatkit/plugins/github/platform/GithubPlatform.java:74 | After any sequence of calls, the field holds the client built by the last start that built one, validated or not. If no start built a client, it holds the initial value. |
| Lifecycle.OperationsNeverWriteClient | runtime/src/main/java/com/xatkit/plugins/github/platform/GithubPlatform.java:123-194 | A sequence made only of operation calls leaves the platform unchanged. |
| Lifecycle.NoBuilderNoLastBuilt | runtime/src/main/java/com/xatkit/plugins/github/platform/GithubPlatform.java:105-110 | If no call builds a client, there is no last built client. |
| Lifecycle.ClientNeverReset | runtime/src/main/java/com/xatkit/plugins/github/platform/GithubPlatform.java:69-74 | Once the field is non-null, no later call makes it null again. |
| Lifecycle.LastBuiltComesFromStart | runtime/src/main/java/com/xatkit/plugins/github/platform/GithubPlatform.java:98-104 | The last built client was produced by some start call of the sequence, from that call's configuration. |
| Lifecycle.ClientChangedOnlyByStart | runtime/src/main/java/com/xatkit/plugins/github/platform/GithubPlatform.java:74 | Whenever a sequence of calls changes the field, one of its calls was a start whose configuration built the client now stored. |

## Left out

- `super.start(xatkitCore, configuration)`, `XatkitCore` and `StateContext` belong to the Xatkit runtime, which is not part of this model. The context is an opaque identity that is forwarded.
- Logging (`Log.info` of the login at :211, `Log.warn` at :106-109) is not modelled. The no-credentials branch is observable only as a normal return that leaves the field unchanged.
- `new RtGithub(...)` and `users().self().login()` are network calls into the jcabi library. The client is its credentials, and the self-login is an uninterpreted `login` function parameter.
- Unchecked throwables other than `AssertionError` from the self-login (a JSON parse error, a `NullPointerException` or a `ClassCastException` while reading the login) are not modelled. `checkGithubClient` does not catch them (:212-216), so they would leave `start` unwrapped after the field was assigned at :98 or :103.
- The actions `AssignUser`, `CommentIssue`, `GetIssue`, `OpenIssue` and `SetLabel`, and `executeRuntimeAction`, are not part of this model. What they do remotely (label creation, issue lookup) is an abstract `execute` parameter. Only the delegation and the cast are modelled.
- Lombok's `@NonNull` null checks on the operations' parameters are not modelled. Arguments are never null in the model.
- `checkNotNull(githubClient, ...)` at :208 cannot fail at its two call sites, because the client was built just before. The model has no null client to pass.
- The Apache `Configuration`'s list values, interpolation and type conversion are not modelled. Values are plain strings.
- The key constants are non-final static fields in the source. The model treats them as constants.
- The message text of `checkArgument` (a format string built from the class name, the username and the key) is kept only as its data: `IllegalArgument(username, key)`.
- The message of `new XatkitException(e)` is derived by Java from the cause. It is modelled as no message of its own.
- Thread safety of the shared client is not modelled; the code introduces no concurrency.
