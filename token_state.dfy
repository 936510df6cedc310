/**
 * The security token of deep-security (`Token`) as a state machine over values.
 *
 * A `State` is a snapshot of one token's fields together with the process-wide
 * ambient SDK credentials (`AWS.config.credentials`). Each operation is a function
 * from a state, and the answers the collaborators would give, to the next state,
 * the value handed to the callback, and the list of collaborator calls made.
 * The class in token.dfy is proved to follow these functions.
 */
module TokenState {
  import opened Wrappers

  /** A federated login assertion: the provider key and its opaque user token. */
  datatype IdentityProvider = IdentityProvider(name: string, userToken: string)

  /** A Lambda invocation context; only `identity.cognitoIdentityId` is read. */
  datatype LambdaContext = LambdaContext(cognitoIdentityId: string)

  /** An injected user directory; its answers are passed to `GetUser` as a parameter. */
  datatype UserProvider = UserProvider(handle: nat)

  /** An application user record, opaque to the token. */
  datatype User = User(record: string)

  /** The access keys of an SDK credentials object. */
  datatype SessionKeys = SessionKeys(accessKeyId: string, secretAccessKey: string, sessionToken: string)

  /** The parameters `AWS.CognitoIdentityCredentials` is built with. */
  datatype LoginRequest = LoginRequest(identityPoolId: string, logins: Option<map<string, string>>)

  /**
   * A credentials object. `request` is the parameters it was built with (a record
   * read back from the store need not have any), `keys` its access keys once known,
   * and `identityId` its own `IdentityId` property: `None` when the object has no
   * such property, `Some(None)` when it has one whose value is null or undefined,
   * `Some(Some(id))` when it holds a string.
   */
  datatype Credentials = Credentials(request: Option<LoginRequest>, keys: Option<SessionKeys>, identityId: Option<Option<string>>)

  /** What a successful `refresh` writes into the credentials object (the `IdentityId` property as above). */
  datatype Refreshed = Refreshed(keys: SessionKeys, identityId: Option<Option<string>>)

  /**
   * The ambient SDK credentials: either a credentials object installed as it is,
   * or the copy `_populateAwsCredentials` builds from the previous ambient keys
   * and the token's current identity id.
   */
  datatype Ambient =
    | Installed(credentials: Credentials)
    | Populated(identityPoolId: string, keys: Option<SessionKeys>, identityId: Option<string>)
  {
    function Keys(): Option<SessionKeys> {
      match this
      case Installed(c) => c.keys
      case Populated(_, k, _) => k
    }
  }

  /** Opaque errors raised by the SDK refresh and by the credentials store. */
  datatype SdkError = SdkError(message: string)
  datatype StoreError = StoreError(message: string)

  /**
   * What a caller can receive instead of a value: a wrapped refresh failure, a
   * store failure passed through unchanged, or the `TypeError` JavaScript throws
   * when a member of `null` is read.
   */
  datatype Error =
    | AuthException(sdkError: SdkError)
    | StoreFailure(storeError: StoreError)
    | TypeError

  /** A call into a collaborator. */
  datatype Call =
    | Refresh(request: LoginRequest)
    | StoreLoad
    | StoreSave(saved: Credentials)
    | LoadUserByIdentityId(provider: UserProvider, identityId: Option<string>)

  /** The answers the collaborators give if `LoadCredentials` calls them. */
  datatype Collaborators = Collaborators(
    refresh: Result<Refreshed, SdkError>,
    storeLoad: Result<Option<Credentials>, StoreError>,
    storeSave: Option<StoreError>)

  /** The fields of one token, and the ambient SDK credentials. */
  datatype State = State(
    identityPoolId: string,
    identityProvider: Option<IdentityProvider>,
    lambdaContext: Option<LambdaContext>,
    userProvider: Option<UserProvider>,
    credentials: Option<Credentials>,
    user: Option<User>,
    ambient: Option<Ambient>)

  datatype LoadStep = LoadStep(state: State, result: Result<Option<Credentials>, Error>, calls: seq<Call>)
  datatype UserStep = UserStep(state: State, result: Result<Option<User>, Error>, calls: seq<Call>)

  /** A token right after `new Token(identityPoolId)`: every field is null. */
  function Initial(identityPoolId: string, ambient: Option<Ambient>): (s: State)
    ensures s.identityPoolId == identityPoolId && s.ambient == ambient
    ensures IsAnonymous(s) && !ValidCredentials(s) && IdentityId(s).None? && s.user.None?
  {
    State(identityPoolId, None, None, None, None, None, ambient)
  }

  /**
   * `_validCredentials`: credentials are held and carry an `IdentityId` property,
   * whatever its value; expiry is not looked at.
   */
  predicate ValidCredentials(s: State) {
    s.credentials.Some? && s.credentials.value.identityId.Some?
  }

  /** `identityId`: the credentials' `IdentityId`, else the Lambda context's identity, else null. */
  function IdentityId(s: State): (id: Option<string>)
    ensures id.Some? ==> s.credentials.Some? || s.lambdaContext.Some?
  {
    if ValidCredentials(s) then s.credentials.value.identityId.value
    else if s.lambdaContext.Some? then Some(s.lambdaContext.value.cognitoIdentityId)
    else None
  }

  /** `isAnonymous`: neither an identity provider nor a Lambda context is set. */
  predicate IsAnonymous(s: State) {
    s.identityProvider.None? && s.lambdaContext.None?
  }

  /** The `Logins` entry of the federation request: one pair `name -> userToken`, or none. */
  function Logins(provider: Option<IdentityProvider>): (logins: Option<map<string, string>>)
    ensures logins.Some? <==> provider.Some?
    ensures logins.Some? ==> logins.value.Keys == {provider.value.name}
    ensures logins.Some? ==> logins.value[provider.value.name] == provider.value.userToken
  {
    match provider
    case None => None
    case Some(p) => Some(map[p.name := p.userToken])
  }

  /** The `cognitoParams` of the federation branch. */
  function FederationRequest(s: State): (request: LoginRequest)
    ensures request.identityPoolId == s.identityPoolId
    ensures request.logins.Some? <==> s.identityProvider.Some?
    ensures s.identityProvider.None? ==> request == LoginRequest(s.identityPoolId, None)
    ensures s.identityProvider.Some? ==>
      request.logins == Some(map[s.identityProvider.value.name := s.identityProvider.value.userToken])
  {
    LoginRequest(s.identityPoolId, Logins(s.identityProvider))
  }

  /** A freshly built SDK credentials object: it knows its request and nothing else yet. */
  function Unrefreshed(request: LoginRequest): Credentials {
    Credentials(Some(request), None, None)
  }

  /** The same credentials object after `refresh` has filled it in. */
  function ApplyRefresh(c: Credentials, r: Refreshed): Credentials {
    c.(keys := Some(r.keys), identityId := r.identityId)
  }

  /**
   * `_populateAwsCredentials`: the new ambient object, built from the previous
   * ambient keys and the current identity id; reading the keys of null ambient
   * credentials throws.
   */
  function Populate(s: State): (r: Result<Ambient, Error>)
    ensures r.Err? <==> s.ambient.None?
    ensures r.Err? ==> r.error == TypeError
    ensures r.Ok? ==> r.value.Populated? && r.value.identityPoolId == s.identityPoolId
    ensures r.Ok? ==> r.value.Keys() == s.ambient.value.Keys()
    ensures r.Ok? && !ValidCredentials(s) && s.lambdaContext.Some? ==>
      r.value.identityId == Some(s.lambdaContext.value.cognitoIdentityId)
    ensures r.Ok? && ValidCredentials(s) ==> r.value.identityId == s.credentials.value.identityId.value
  {
    match s.ambient
    case None => Err(TypeError)
    case Some(a) => Ok(Populated(s.identityPoolId, a.Keys(), IdentityId(s)))
  }

  /** `loadCredentials`: the cache check, then the Lambda-context branch or the federation branch. */
  function LoadCredentials(s: State, env: Collaborators): (step: LoadStep)
    ensures step.calls == [] <==> ValidCredentials(s) || (s.lambdaContext.Some? && s.ambient.None?)
    ensures step.result.Ok? ==> step.result.value == step.state.credentials
  {
    if ValidCredentials(s) then
      LoadStep(s, Ok(s.credentials), [])
    else if s.lambdaContext.Some? then
      match Populate(s)
      case Err(e) => LoadStep(s, Err(e), [])
      case Ok(a) =>
        var s1 := s.(ambient := Some(a));
        match env.storeLoad
        case Err(e) => LoadStep(s1, Err(StoreFailure(e)), [StoreLoad])
        case Ok(c) => LoadStep(s1.(credentials := c), Ok(c), [StoreLoad])
    else
      var request := FederationRequest(s);
      var c := Unrefreshed(request);
      var s1 := s.(credentials := Some(c));
      match env.refresh
      case Err(e) => LoadStep(s1, Err(AuthException(e)), [Refresh(request)])
      case Ok(r) =>
        var c2 := ApplyRefresh(c, r);
        var s2 := s1.(credentials := Some(c2), ambient := Some(Installed(c2)));
        match env.storeSave
        case Some(e) => LoadStep(s2, Err(StoreFailure(e)), [Refresh(request), StoreSave(c2)])
        case None => LoadStep(s2, Ok(Some(c2)), [Refresh(request), StoreSave(c2)])
  }

  /**
   * `getUser`: nothing when anonymous; the memoized user if there is one; otherwise
   * the user directory's answer, memoized only when it is a user. `answer` is what
   * the directory yields for the current identity id (`None` for a falsy value).
   */
  function GetUser(s: State, answer: Option<User>): (step: UserStep)
    ensures step.calls != [] <==> !IsAnonymous(s) && s.user.None? && s.userProvider.Some?
    ensures s.user.Some? ==> step.state.user == s.user
    ensures !IsAnonymous(s) && step.result.Ok? && step.result.value.Some? ==> step.state.user == step.result.value
  {
    if IsAnonymous(s) then
      UserStep(s, Ok(None), [])
    else if s.user.None? then
      match s.userProvider
      case None => UserStep(s, Err(TypeError), [])
      case Some(p) =>
        var s1 := if answer.Some? then s.(user := answer) else s;
        UserStep(s1, Ok(answer), [LoadUserByIdentityId(p, IdentityId(s))])
    else
      UserStep(s, Ok(s.user), [])
  }
}
