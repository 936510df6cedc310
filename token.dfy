/**
 * The `Token` class: mutable fields, methods that update them step by step, and
 * a `View()` of the fields as a `TokenState.State`, against which each method is
 * proved. The process-wide SDK configuration (`AWS.config`) is an object of its
 * own that every token shares.
 */
module TokenObject {
  import opened Wrappers
  import opened TokenState
  import PoolRegion

  /** The global SDK configuration: the ambient credentials and the Cognito region. */
  class SdkConfig {
    var credentials: Option<Ambient>
    var cognitoRegion: Option<string>

    constructor (credentials: Option<Ambient>)
      ensures this.credentials == credentials && cognitoRegion.None?
    {
      this.credentials := credentials;
      cognitoRegion := None;
    }
  }

  class Token {
    const identityPoolId: string
    var identityProvider: Option<IdentityProvider>
    var lambdaContext: Option<LambdaContext>
    var userProvider: Option<UserProvider>
    var credentials: Option<Credentials>
    var user: Option<User>
    const sdk: SdkConfig
    /** Every collaborator call this token has made, oldest first. */
    ghost var calls: seq<Call>

    /** The token's fields and the ambient credentials, as a value. */
    function View(): State
      reads this, sdk
    {
      State(identityPoolId, identityProvider, lambdaContext, userProvider, credentials, user, sdk.credentials)
    }

    /** `new Token(identityPoolId)`: all fields null; the Cognito region is set from the pool id. */
    constructor (identityPoolId: string, sdk: SdkConfig)
      modifies sdk
      ensures this.sdk == sdk
      ensures View() == Initial(identityPoolId, old(sdk.credentials))
      ensures sdk.cognitoRegion == Some(PoolRegion.RegionOf(identityPoolId))
      ensures calls == []
    {
      this.identityPoolId := identityPoolId;
      identityProvider := None;
      lambdaContext := None;
      userProvider := None;
      credentials := None;
      user := None;
      this.sdk := sdk;
      calls := [];
      new;
      sdk.cognitoRegion := Some(PoolRegion.RegionOf(identityPoolId));
    }

    /** `Token.create`. */
    static method Create(identityPoolId: string, sdk: SdkConfig) returns (token: Token)
      modifies sdk
      ensures fresh(token) && token.sdk == sdk && token.calls == []
      ensures token.View() == Initial(identityPoolId, old(sdk.credentials))
      ensures sdk.cognitoRegion == Some(PoolRegion.RegionOf(identityPoolId))
    {
      token := new Token(identityPoolId, sdk);
    }

    /** `Token.createFromIdentityProvider`: a new token that federates through `provider`. */
    static method CreateFromIdentityProvider(identityPoolId: string, provider: IdentityProvider, sdk: SdkConfig)
      returns (token: Token)
      modifies sdk
      ensures fresh(token) && token.sdk == sdk && token.calls == []
      ensures token.View() == Initial(identityPoolId, old(sdk.credentials)).(identityProvider := Some(provider))
      ensures sdk.cognitoRegion == Some(PoolRegion.RegionOf(identityPoolId))
    {
      token := new Token(identityPoolId, sdk);
      token.SetIdentityProvider(Some(provider));
    }

    /** `Token.createFromLambdaContext`: a new token that loads credentials for a Lambda invocation. */
    static method CreateFromLambdaContext(identityPoolId: string, context: LambdaContext, sdk: SdkConfig)
      returns (token: Token)
      modifies sdk
      ensures fresh(token) && token.sdk == sdk && token.calls == []
      ensures token.View() == Initial(identityPoolId, old(sdk.credentials)).(lambdaContext := Some(context))
      ensures sdk.cognitoRegion == Some(PoolRegion.RegionOf(identityPoolId))
    {
      token := new Token(identityPoolId, sdk);
      token.SetLambdaContext(Some(context));
    }

    /** The `identityProvider` setter. */
    method SetIdentityProvider(provider: Option<IdentityProvider>)
      modifies this`identityProvider
      ensures View() == old(View()).(identityProvider := provider)
    {
      identityProvider := provider;
    }

    /** The `lambdaContext` setter. */
    method SetLambdaContext(context: Option<LambdaContext>)
      modifies this`lambdaContext
      ensures View() == old(View()).(lambdaContext := context)
    {
      lambdaContext := context;
    }

    /** The `userProvider` setter. */
    method SetUserProvider(provider: Option<UserProvider>)
      modifies this`userProvider
      ensures View() == old(View()).(userProvider := provider)
    {
      userProvider := provider;
    }

    /**
     * `_populateAwsCredentials`: replaces the ambient credentials by a copy that
     * carries this token's identity id; throws when there are no ambient credentials.
     */
    method PopulateAwsCredentials() returns (outcome: Result<(), Error>)
      modifies sdk`credentials
      ensures var p := Populate(old(View()));
        && (p.Err? ==> outcome == Err(p.error) && View() == old(View()))
        && (p.Ok? ==> outcome == Ok(()) && View() == old(View()).(ambient := Some(p.value)))
    {
      if sdk.credentials.None? {
        return Err(TypeError);
      }
      var keys := sdk.credentials.value.Keys();
      var id := IdentityId(View());
      sdk.credentials := Some(Populated(identityPoolId, keys, id));
      outcome := Ok(());
    }

    /**
     * `loadCredentials`: `env` holds what the refresh and the credentials store
     * answer if they are called; the result is what the callback receives.
     */
    method LoadCredentials(env: Collaborators) returns (result: Result<Option<Credentials>, Error>)
      modifies this`credentials, this`calls, sdk`credentials
      ensures var step := TokenState.LoadCredentials(old(View()), env);
        View() == step.state && result == step.result && calls == old(calls) + step.calls
    {
      if ValidCredentials(View()) {
        return Ok(credentials);
      }
      if lambdaContext.Some? {
        var populated := PopulateAwsCredentials();
        if populated.Err? {
          return Err(populated.error);
        }
        calls := calls + [StoreLoad];
        match env.storeLoad {
          case Err(e) =>
            result := Err(StoreFailure(e));
          case Ok(loaded) =>
            credentials := loaded;
            result := Ok(credentials);
        }
      } else {
        var request := FederationRequest(View());
        credentials := Some(Unrefreshed(request));
        calls := calls + [Refresh(request)];
        match env.refresh {
          case Err(e) =>
            result := Err(AuthException(e));
          case Ok(refreshed) =>
            credentials := Some(ApplyRefresh(credentials.value, refreshed));
            sdk.credentials := Some(Installed(credentials.value));
            calls := calls + [StoreSave(credentials.value)];
            match env.storeSave {
              case Some(e) =>
                result := Err(StoreFailure(e));
              case None =>
                result := Ok(credentials);
            }
        }
      }
    }

    /**
     * `getUser`: `answer` is what the user provider yields for the current identity
     * id if it is asked; the result is what the callback receives.
     */
    method GetUser(answer: Option<User>) returns (result: Result<Option<User>, Error>)
      modifies this`user, this`calls
      ensures var step := TokenState.GetUser(old(View()), answer);
        View() == step.state && result == step.result && calls == old(calls) + step.calls
    {
      if IsAnonymous(View()) {
        return Ok(None);
      }
      if user.None? {
        if userProvider.None? {
          return Err(TypeError);
        }
        calls := calls + [LoadUserByIdentityId(userProvider.value, IdentityId(View()))];
        if answer.Some? {
          user := answer;
        }
        return Ok(answer);
      }
      result := Ok(user);
    }
  }

  /**
   * The ambient credentials belong to the process, not to a token: a load by one
   * token replaces them for every other token sharing the SDK configuration,
   * whose own fields stay as they were.
   */
  method LoadSeenByOtherTokens(a: Token, b: Token, env: Collaborators) returns (result: Result<Option<Credentials>, Error>)
    requires a != b && a.sdk == b.sdk
    modifies a, a.sdk
    ensures result == TokenState.LoadCredentials(old(a.View()), env).result
    ensures b.View() == old(b.View()).(ambient := a.View().ambient)
  {
    result := a.LoadCredentials(env);
  }
}
