/** What the token promises, proved about the state machine of token_state.dfy. */
module TokenProperties {
  import opened Wrappers
  import opened TokenState

  // ---------------------------------------------------------------------------
  // Derived accessors

  /**
   * `identityId` has exactly two sources, credentials first, and is null otherwise.
   * Credentials whose `IdentityId` property holds null shadow the Lambda context.
   */
  lemma IdentityIdSources(s: State)
    ensures ValidCredentials(s) ==> IdentityId(s) == s.credentials.value.identityId.value
    ensures !ValidCredentials(s) && s.lambdaContext.Some? ==>
      IdentityId(s) == Some(s.lambdaContext.value.cognitoIdentityId)
    ensures IdentityId(s).None? <==>
      (!ValidCredentials(s) && s.lambdaContext.None?) ||
      (ValidCredentials(s) && s.credentials.value.identityId.value.None?)
  {
  }

  /** `isAnonymous` depends on the configuration only, never on what has been loaded. */
  lemma AnonymityIsConfiguration(s: State, credentials: Option<Credentials>, user: Option<User>, ambient: Option<Ambient>)
    ensures IsAnonymous(s) <==> s.identityProvider.None? && s.lambdaContext.None?
    ensures IsAnonymous(s.(credentials := credentials, user := user, ambient := ambient)) == IsAnonymous(s)
  {
  }

  // ---------------------------------------------------------------------------
  // loadCredentials

  /** Valid cached credentials are returned as they are: no collaborator is called and nothing changes. */
  lemma CacheShortCircuit(s: State, env: Collaborators)
    requires ValidCredentials(s)
    ensures LoadCredentials(s, env) == LoadStep(s, Ok(s.credentials), [])
  {
  }

  /** `loadCredentials` never changes the configuration, the pool id or the memoized user. */
  lemma LoadKeepsConfiguration(s: State, env: Collaborators)
    ensures var t := LoadCredentials(s, env).state;
      t == s.(credentials := t.credentials, ambient := t.ambient)
  {
  }

  /**
   * The federation request: its `Logins` entry is present exactly when a provider
   * is set and then maps the provider's name to its user token and nothing else;
   * without a provider the request holds only the pool id.
   */
  lemma FederationRequestShape(s: State, env: Collaborators)
    requires !ValidCredentials(s) && s.lambdaContext.None?
    ensures var step := LoadCredentials(s, env);
      && |step.calls| >= 1 && step.calls[0] == Refresh(FederationRequest(s))
      && FederationRequest(s).identityPoolId == s.identityPoolId
      && (FederationRequest(s).logins.Some? <==> s.identityProvider.Some?)
      && (s.identityProvider.None? ==> FederationRequest(s) == LoginRequest(s.identityPoolId, None))
      && (s.identityProvider.Some? ==>
            FederationRequest(s).logins == Some(map[s.identityProvider.value.name := s.identityProvider.value.userToken]))
  {
  }

  /**
   * A failed refresh: the error comes back wrapped in an `AuthException`, nothing
   * is saved, the ambient credentials stay as they were, and the token keeps the
   * new, unrefreshed credentials object.
   */
  lemma FederationFailure(s: State, env: Collaborators)
    requires !ValidCredentials(s) && s.lambdaContext.None?
    requires env.refresh.Err?
    ensures var step := LoadCredentials(s, env);
      && step.result == Err(AuthException(env.refresh.error))
      && step.calls == [Refresh(FederationRequest(s))]
      && step.state.ambient == s.ambient
      && step.state == s.(credentials := Some(Unrefreshed(FederationRequest(s))))
      && !ValidCredentials(step.state)
  {
  }

  /**
   * A successful refresh: the refreshed object becomes both the token's and the
   * ambient credentials and is saved as it is; a save error comes back unwrapped,
   * otherwise the refreshed object does.
   */
  lemma FederationSuccess(s: State, env: Collaborators)
    requires !ValidCredentials(s) && s.lambdaContext.None?
    requires env.refresh.Ok?
    ensures var step := LoadCredentials(s, env);
      var c := ApplyRefresh(Unrefreshed(FederationRequest(s)), env.refresh.value);
      && step.state.credentials == Some(c)
      && step.state.ambient == Some(Installed(c))
      && step.calls == [Refresh(FederationRequest(s)), StoreSave(c)]
      && (env.storeSave.Some? ==> step.result == Err(StoreFailure(env.storeSave.value)))
      && (env.storeSave.None? ==> step.result == Ok(Some(c)))
      && c.identityId == env.refresh.value.identityId
      && c.keys == Some(env.refresh.value.keys)
  {
  }

  /**
   * The Lambda-context branch never refreshes and never saves. With ambient
   * credentials it replaces them by a copy carrying the context's identity, then
   * asks the store: a store error is passed back and the credentials are kept,
   * otherwise the loaded value is installed and returned. Without ambient
   * credentials the copy throws and nothing changes.
   */
  lemma LambdaContextBranch(s: State, env: Collaborators)
    requires !ValidCredentials(s) && s.lambdaContext.Some?
    ensures var step := LoadCredentials(s, env);
      && (forall i :: 0 <= i < |step.calls| ==> !step.calls[i].Refresh? && !step.calls[i].StoreSave?)
      && (s.ambient.None? ==> step == LoadStep(s, Err(TypeError), []))
      && (s.ambient.Some? ==>
            && step.calls == [StoreLoad]
            && step.state.ambient ==
                 Some(Populated(s.identityPoolId, s.ambient.value.Keys(), Some(s.lambdaContext.value.cognitoIdentityId)))
            && (env.storeLoad.Err? ==>
                  step.result == Err(StoreFailure(env.storeLoad.error)) && step.state.credentials == s.credentials)
            && (env.storeLoad.Ok? ==>
                  step.result == Ok(env.storeLoad.value) && step.state.credentials == env.storeLoad.value))
  {
  }

  /** Federated credentials that carry an `IdentityId` are served from the cache on the next call. */
  lemma FederatedThenCached(s: State, env: Collaborators, next: Collaborators)
    requires !ValidCredentials(s) && s.lambdaContext.None?
    requires env.refresh.Ok? && env.refresh.value.identityId.Some?
    ensures var first := LoadCredentials(s, env);
      var second := LoadCredentials(first.state, next);
      && IdentityId(first.state) == env.refresh.value.identityId.value
      && second.calls == [] && second.state == first.state
      && second.result == Ok(first.state.credentials)
  {
  }

  /** Without an `IdentityId`, whatever the last call ended in, the next call federates again. */
  lemma FederationRepeatsWithoutIdentityId(s: State, env: Collaborators, next: Collaborators)
    requires !ValidCredentials(s) && s.lambdaContext.None?
    requires env.refresh.Err? || env.refresh.value.identityId.None?
    ensures var first := LoadCredentials(s, env);
      var second := LoadCredentials(first.state, next);
      && !ValidCredentials(first.state)
      && |second.calls| >= 1 && second.calls[0] == Refresh(FederationRequest(s))
  {
  }

  /**
   * A store record whose `IdentityId` property holds null is cached all the same:
   * the next load makes no call, `identityId` is null although a Lambda context is
   * set, and the user provider is then asked with a null identity id.
   */
  lemma NullIdentityIdIsCached(s: State, env: Collaborators, next: Collaborators, answer: Option<User>)
    requires !ValidCredentials(s) && s.lambdaContext.Some? && s.ambient.Some?
    requires env.storeLoad.Ok? && env.storeLoad.value.Some? && env.storeLoad.value.value.identityId == Some(None)
    requires s.user.None? && s.userProvider.Some?
    ensures var first := LoadCredentials(s, env);
      && ValidCredentials(first.state)
      && IdentityId(first.state).None?
      && LoadCredentials(first.state, next) == LoadStep(first.state, Ok(env.storeLoad.value), [])
      && GetUser(first.state, answer).calls == [LoadUserByIdentityId(s.userProvider.value, None)]
  {
  }

  /** A store record without an `IdentityId` is not cached: the next call asks the store again. */
  lemma StoreRecordWithoutIdentityIdReloads(s: State, env: Collaborators, next: Collaborators)
    requires !ValidCredentials(s) && s.lambdaContext.Some? && s.ambient.Some?
    requires env.storeLoad.Ok? && (env.storeLoad.value.None? || env.storeLoad.value.value.identityId.None?)
    ensures var first := LoadCredentials(s, env);
      LoadCredentials(first.state, next).calls == [StoreLoad]
  {
  }

  /** The result of `loadCredentials` over a sequence of calls, one `Collaborators` per call. */
  datatype LoadRun = LoadRun(state: State, results: seq<Result<Option<Credentials>, Error>>, calls: seq<Call>)

  function LoadRepeatedly(s: State, envs: seq<Collaborators>): (run: LoadRun)
    ensures |run.results| == |envs|
    decreases |envs|
  {
    if envs == [] then LoadRun(s, [], [])
    else
      var step := LoadCredentials(s, envs[0]);
      var rest := LoadRepeatedly(step.state, envs[1..]);
      LoadRun(rest.state, [step.result] + rest.results, step.calls + rest.calls)
  }

  /**
   * Once the credentials are valid, any number of further loads returns them
   * without a single collaborator call and without changing anything.
   */
  lemma {:induction false} ValidCredentialsAreStable(s: State, envs: seq<Collaborators>)
    requires ValidCredentials(s)
    ensures var run := LoadRepeatedly(s, envs);
      && run.state == s && run.calls == []
      && forall i :: 0 <= i < |run.results| ==> run.results[i] == Ok(s.credentials)
  {
    if envs != [] {
      CacheShortCircuit(s, envs[0]);
      ValidCredentialsAreStable(s, envs[1..]);
    }
  }

  // ---------------------------------------------------------------------------
  // getUser

  /** `getUser` changes nothing but the memoized user. */
  lemma GetUserKeepsEverythingElse(s: State, answer: Option<User>)
    ensures var t := GetUser(s, answer).state; t == s.(user := t.user)
  {
  }

  /** An anonymous token yields no user and never asks the user provider. */
  lemma GetUserAnonymous(s: State, answer: Option<User>)
    requires IsAnonymous(s)
    ensures GetUser(s, answer) == UserStep(s, Ok(None), [])
  {
  }

  /** Without a user provider, looking a user up throws before anything changes. */
  lemma GetUserWithoutProvider(s: State, answer: Option<User>)
    requires !IsAnonymous(s) && s.user.None? && s.userProvider.None?
    ensures GetUser(s, answer) == UserStep(s, Err(TypeError), [])
  {
  }

  /** A memoized user is returned without asking the user provider. */
  lemma GetUserMemoized(s: State, answer: Option<User>)
    requires !IsAnonymous(s) && s.user.Some?
    ensures GetUser(s, answer) == UserStep(s, Ok(s.user), [])
  {
  }

  /**
   * Otherwise the user provider is asked once, with the current identity id; its
   * answer is passed on as it is and memoized only when it is a user.
   */
  lemma GetUserLookup(s: State, answer: Option<User>)
    requires !IsAnonymous(s) && s.user.None? && s.userProvider.Some?
    ensures var step := GetUser(s, answer);
      && step.calls == [LoadUserByIdentityId(s.userProvider.value, IdentityId(s))]
      && step.result == Ok(answer)
      && step.state.user == answer
  {
  }

  /** A falsy answer is not memoized: the next call asks the user provider again. */
  lemma FalsyUserIsLookedUpAgain(s: State, next: Option<User>)
    requires !IsAnonymous(s) && s.user.None? && s.userProvider.Some?
    ensures var first := GetUser(s, None);
      var second := GetUser(first.state, next);
      && first.state == s
      && second.calls == [LoadUserByIdentityId(s.userProvider.value, IdentityId(s))]
  {
  }

  /** A user answer is memoized: the next call returns it without asking. */
  lemma TruthyUserIsMemoized(s: State, u: User, next: Option<User>)
    requires !IsAnonymous(s) && s.user.None? && s.userProvider.Some?
    ensures var first := GetUser(s, Some(u));
      var second := GetUser(first.state, next);
      && first.result == Ok(Some(u)) && second.result == Ok(Some(u)) && second.calls == []
  {
  }

  /** The result of `getUser` over a sequence of calls, one directory answer per call. */
  datatype UserRun = UserRun(state: State, results: seq<Result<Option<User>, Error>>, calls: seq<Call>)

  function GetUserRepeatedly(s: State, answers: seq<Option<User>>): (run: UserRun)
    ensures |run.results| == |answers|
    decreases |answers|
  {
    if answers == [] then UserRun(s, [], [])
    else
      var step := GetUser(s, answers[0]);
      var rest := GetUserRepeatedly(step.state, answers[1..]);
      UserRun(rest.state, [step.result] + rest.results, step.calls + rest.calls)
  }

  /** Once a user is memoized on a token that is not anonymous, it is resolved exactly once. */
  lemma {:induction false} MemoizedUserIsStable(s: State, answers: seq<Option<User>>)
    requires !IsAnonymous(s) && s.user.Some?
    ensures var run := GetUserRepeatedly(s, answers);
      && run.state == s && run.calls == []
      && forall i :: 0 <= i < |run.results| ==> run.results[i] == Ok(s.user)
  {
    if answers != [] {
      GetUserMemoized(s, answers[0]);
      MemoizedUserIsStable(s, answers[1..]);
    }
  }

  /** An anonymous token never asks the user provider, however often it is asked for a user. */
  lemma {:induction false} AnonymousNeverLooksUp(s: State, answers: seq<Option<User>>)
    requires IsAnonymous(s)
    ensures var run := GetUserRepeatedly(s, answers);
      && run.state == s && run.calls == []
      && forall i :: 0 <= i < |run.results| ==> run.results[i] == Ok(None)
  {
    if answers != [] {
      GetUserAnonymous(s, answers[0]);
      AnonymousNeverLooksUp(s, answers[1..]);
    }
  }

  // ---------------------------------------------------------------------------
  // Scenarios

  /**
   * An example: a token for provider `google`/`tok` whose refresh yields identity `id-1`
   * returns the refreshed credentials, and then reports identity `id-1`.
   */
  lemma FederatedScenario(ambient: Option<Ambient>, keys: SessionKeys)
    ensures var s := Initial("us-east-1:pool", ambient).(identityProvider := Some(IdentityProvider("google", "tok")));
      var env := Collaborators(Ok(Refreshed(keys, Some(Some("id-1")))), Err(StoreError("unused")), None);
      var step := LoadCredentials(s, env);
      && step.calls[0] == Refresh(LoginRequest("us-east-1:pool", Some(map["google" := "tok"])))
      && step.result.Ok? && step.result.value.Some?
      && step.result.value.value.keys == Some(keys)
      && IdentityId(step.state) == Some("id-1")
  {
  }

  /** An example: a token for a Lambda context with identity `ctx-id` reports that identity before any load. */
  lemma LambdaContextScenario(identityPoolId: string, ambient: Option<Ambient>)
    ensures IdentityId(Initial(identityPoolId, ambient).(lambdaContext := Some(LambdaContext("ctx-id")))) == Some("ctx-id")
  {
  }
}
