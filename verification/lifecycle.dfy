/**
 * Sequences of calls on one platform object: `start` and the public
 * operations, in any order. Only `start` ever writes the client field.
 */
module Lifecycle {
  import opened Wrappers
  import opened Configuration
  import opened Credentials
  import opened Validation
  import opened Platform
  import opened Operations

  /** One call on the platform. */
  datatype Event =
    | StartCall(config: Config)
    | OperationCall(context: StateContext, op: Operation)

  /** The platform after one call; an operation returns a value, never a new platform. */
  function Step(p: GithubPlatform, e: Event, login: Client -> LoginOutcome): GithubPlatform
  {
    match e
    case StartCall(c) => Start(p, c, login).platform
    case OperationCall(_, _) => p
  }

  /** The platform after a sequence of calls, first call first (a call that throws does not stop the sequence). */
  function Run(p: GithubPlatform, events: seq<Event>, login: Client -> LoginOutcome): GithubPlatform
    decreases |events|
  {
    if |events| == 0 then p else Run(Step(p, events[0], login), events[1..], login)
  }

  /** Whether the call is a `start` that builds a client. */
  predicate BuildsClient(e: Event)
  {
    e.StartCall? && ClientFor(Resolve(e.config)).Some?
  }

  /** The client built by the last `start` call of `events` that built one, scanning from the end. */
  function LastBuilt(events: seq<Event>): Option<Client>
    decreases |events|
  {
    if |events| == 0 then None
    else
      var e := events[|events| - 1];
      if BuildsClient(e) then ClientFor(Resolve(e.config)) else LastBuilt(events[..|events| - 1])
  }

  /** Running one more call after a sequence is stepping the platform the sequence produced. */
  lemma {:induction false} RunSnoc(p: GithubPlatform, events: seq<Event>, e: Event, login: Client -> LoginOutcome)
    ensures Run(p, events + [e], login) == Step(Run(p, events, login), e, login)
    decreases |events|
  {
    if |events| == 0 {
      assert events + [e] == [e];
      assert [e][1..] == [];
    } else {
      assert (events + [e])[1..] == events[1..] + [e];
      RunSnoc(Step(p, events[0], login), events[1..], e, login);
    }
  }

  /**
   * The client field after any sequence of calls is the client built by the
   * last `start` that built one — validated or not — and is the initial one
   * when no `start` built a client.
   */
  lemma {:induction false} RunKeepsLastBuiltClient(p: GithubPlatform, events: seq<Event>, login: Client -> LoginOutcome)
    ensures Run(p, events, login).githubClient ==
              if LastBuilt(events).Some? then LastBuilt(events) else p.githubClient
    decreases |events|
  {
    if |events| > 0 {
      var init := events[..|events| - 1];
      var e := events[|events| - 1];
      assert events == init + [e];
      RunSnoc(p, init, e, login);
      RunKeepsLastBuiltClient(p, init, login);
    }
  }

  /** Operations alone never change the platform, whatever the runtime does. */
  lemma OperationsNeverWriteClient(p: GithubPlatform, events: seq<Event>, login: Client -> LoginOutcome)
    requires forall i :: 0 <= i < |events| ==> events[i].OperationCall?
    ensures Run(p, events, login) == p
  {
  }

  /** A sequence in which no call builds a client has no last built client. */
  lemma {:induction false} NoBuilderNoLastBuilt(events: seq<Event>)
    requires forall i :: 0 <= i < |events| ==> !BuildsClient(events[i])
    ensures LastBuilt(events) == None
    decreases |events|
  {
    if |events| > 0 {
      NoBuilderNoLastBuilt(events[..|events| - 1]);
    }
  }

  /** Once the field is non-null, no later call makes it null again. */
  lemma ClientNeverReset(p: GithubPlatform, events: seq<Event>, login: Client -> LoginOutcome)
    requires p.githubClient.Some?
    ensures Run(p, events, login).githubClient.Some?
  {
    RunKeepsLastBuiltClient(p, events, login);
  }

  /** The last built client comes from some `start` call of the sequence. */
  lemma {:induction false} LastBuiltComesFromStart(events: seq<Event>)
    requires LastBuilt(events).Some?
    ensures exists i :: 0 <= i < |events| && BuildsClient(events[i]) &&
                        LastBuilt(events) == ClientFor(Resolve(events[i].config))
    decreases |events|
  {
    var n := |events| - 1;
    if !BuildsClient(events[n]) {
      LastBuiltComesFromStart(events[..n]);
      var i :| 0 <= i < n && BuildsClient(events[..n][i]) &&
               LastBuilt(events[..n]) == ClientFor(Resolve(events[..n][i].config));
      assert events[..n][i] == events[i];
    }
  }

  /**
   * Whenever a sequence of calls changes the client field, one of its calls
   * was a `start` that built the client now stored.
   */
  lemma ClientChangedOnlyByStart(p: GithubPlatform, events: seq<Event>, login: Client -> LoginOutcome)
    requires Run(p, events, login).githubClient != p.githubClient
    ensures exists i :: 0 <= i < |events| && events[i].StartCall? &&
                        Run(p, events, login).githubClient == ClientFor(Resolve(events[i].config))
  {
    RunKeepsLastBuiltClient(p, events, login);
    LastBuiltComesFromStart(events);
  }
}
