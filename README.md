# Security token of deep-security, modelled in Dafny

The `Token` of deep-security obtains and caches temporary AWS credentials for
one Cognito identity pool. It chooses between two acquisition paths: federation
through an identity provider, or the credentials store when a Lambda invocation
context is set. It exposes the identity id, and it resolves and memoizes the
application user for that identity.

The project has five files:

- `wrappers.dfy`: `Option` (JavaScript `null` or a falsy value) and `Result` (a
  Node-style `(error, value)` callback).
- `region.dfy` (module `PoolRegion`): `getRegionFromIdentityPoolId` as a pure
  function. A reference definition of `String.prototype.split` for a
  one-character separator is added, proved to lose nothing (joining the pieces
  gives back the input), and the region is proved to be its first piece.
- `token_state.dfy` (module `TokenState`): the token as a state machine over
  values. A `State` holds the token's fields together with the process-wide
  ambient credentials (`AWS.config.credentials`). `LoadCredentials` and `GetUser`
  map a state, plus the answers the collaborators would give, to three things:
  the next state, the value handed to the callback, and the list of collaborator
  calls made.
- `token.dfy` (module `TokenObject`): the class `Token` with mutable fields,
  setters, factories and the two operations written step by step. Each method is
  proved to follow the functions of `TokenState` through `View()`. The SDK
  configuration is a separate object `SdkConfig` shared by every token. A ghost
  `calls` log records every collaborator call.
- `token_properties.dfy` (module `TokenProperties`): the properties the token
  promises, proved about the state machine. This includes repeated-call lemmas
  proved by induction ("valid credentials are never fetched again", "a memoized
  user is resolved once").

Collaborators are not modelled; only their answers are, passed in as parameters:

- the SDK `refresh` is `Result<Refreshed, SdkError>`;
- `CredentialsManager.loadCredentials` is `Result<Option<Credentials>, StoreError>`;
- `saveCredentials` is `Option<StoreError>`;
- `UserProvider.loadUserByIdentityId` is `Option<User>`, where `None` is any
  falsy answer.

Behaviour of the code that the model keeps:

- Validity checks only that an `IdentityId` property is present
  (`hasOwnProperty`), whatever its value. A credentials object whose
  `IdentityId` is null or empty is valid and is served from the cache, and
  `identityId` then returns that value.
- On the Lambda-context path the ambient credentials are also replaced, by the
  copy `_populateAwsCredentials` builds. This happens before the store is asked,
  so it happens even when the store then fails. The copy carries the token's
  identity id, which on that path is the context's `cognitoIdentityId`.
- Two edge cases of the code are kept. Both throw a `TypeError` (modelled as
  the error `TypeError`) before any field changes:
  - the Lambda-context path when there are no ambient credentials, because
    `AWS.config.credentials.accessKeyId` is read;
  - `getUser` when no user provider has been set.

## Model

| member | source | states |
|---|---|---|
| PoolRegion.RegionOf | src/deep-security/lib/Token.js:154-156 | the region is a prefix of the pool id, contains no ':', and is either the whole id or followed by ':' (i.e. it ends at the first ':') |
| PoolRegion.Split | src/deep-security/lib/Token.js:155 | `split` on a one-character separator yields at least one piece and no piece contains the separator |
| PoolRegion.JoinSplit | src/deep-security/lib/Token.js:155 | joining the pieces of `split` with the separator gives back the input, so together with Split's contract the pieces are exactly the text between separators |
| PoolRegion.RegionUnique | src/deep-security/lib/Token.js:154-156 | any string with the three properties of RegionOf's contract is the region: the contract determines the result |
| PoolRegion.RegionIsFirstPiece | src/deep-security/lib/Token.js:155 | the region is `split(':')[0]` for every pool id |
| PoolRegion.RegionExample | src/deep-security/lib/Token.js:154-156 | `us-east-1:abcd-1234` gives `us-east-1` |
| TokenState.Logins | src/deep-security/lib/Token.js:124-127 | a `Logins` map exists exactly when a provider is set, and then its only key is the provider's name, mapped to its user token |
| TokenState.Initial | src/deep-security/lib/Token.js:19-26 | a new token holds the pool id, is anonymous, has no valid credentials, no identity id and no user; ambient credentials are whatever they were |
| TokenState.ValidCredentials | src/deep-security/lib/Token.js:186-188 | definition (no contract): credentials are held and have an `IdentityId` property, whatever its value; properties in CacheShortCircuit, ValidCredentialsAreStable, NullIdentityIdIsCached |
| TokenState.IdentityId | src/deep-security/lib/Token.js:161-171 | an identity id exists only when credentials or a Lambda context are held; the full case split is IdentityIdSources |
| TokenState.IsAnonymous | src/deep-security/lib/Token.js:193-195 | definition (no contract): neither provider nor context is set; properties in AnonymityIsConfiguration |
| TokenState.FederationRequest | src/deep-security/lib/Token.js:120-127 | the request carries the pool id; it has a `Logins` map exactly when a provider is set, and that map is the single pair name -> userToken; without a provider the request is the pool id alone |
| TokenState.Unrefreshed | src/deep-security/lib/Token.js:129 | definition (no contract): the object built from the request, with no keys and no `IdentityId` property; FederationFailure proves it is not valid |
| TokenState.ApplyRefresh | src/deep-security/lib/Token.js:131 | definition (no contract): refresh fills keys and `IdentityId` into the same object, keeping its request; FederationSuccess states the result |
| TokenState.Populate | src/deep-security/lib/Token.js:56-68 | throws exactly when there are no ambient credentials; otherwise the copy keeps the previous ambient keys and carries the identity the token reports: the credentials' `IdentityId` when valid, else the Lambda context's `cognitoIdentityId` |
| TokenState.LoadCredentials | src/deep-security/lib/Token.js:101-147 | no collaborator is called exactly on a cache hit or when the Lambda path throws for want of ambient credentials; whatever is returned is what the token now holds; the branches are stated by the lemmas below |
| TokenState.GetUser | src/deep-security/lib/Token.js:207-226 | the user provider is called exactly when the token is not anonymous, has no user memoized and has a provider; a memoized user is never dropped; a user yielded by a non-anonymous token is memoized |
| TokenProperties.IdentityIdSources | src/deep-security/lib/Token.js:161-171 | identityId is the credentials' `IdentityId` when that property is present, else the Lambda context's `cognitoIdentityId`; it is null exactly when neither is available or the property holds null |
| TokenProperties.AnonymityIsConfiguration | src/deep-security/lib/Token.js:193-195 | isAnonymous holds iff neither provider nor context is set, whatever the credentials, user and ambient state |
| TokenProperties.CacheShortCircuit | src/deep-security/lib/Token.js:101-105 | with valid cached credentials, loadCredentials returns exactly them, makes no collaborator call and changes nothing |
| TokenProperties.LoadKeepsConfiguration | src/deep-security/lib/Token.js:101-147 | loadCredentials changes only the credentials and the ambient credentials |
| TokenProperties.FederationRequestShape | src/deep-security/lib/Token.js:120-131 | the refresh is made for the federation request, whose `Logins` map exists exactly when a provider is set and holds only name -> userToken; without a provider the request holds only the pool id |
| TokenProperties.FederationFailure | src/deep-security/lib/Token.js:129-134 | a failed refresh gives an AuthException wrapping the error; nothing is saved; ambient credentials are unchanged; the token keeps the unrefreshed object, which is not valid |
| TokenProperties.FederationSuccess | src/deep-security/lib/Token.js:136-144 | after a successful refresh the refreshed object becomes both the token's and the ambient credentials and is saved as it is; a save error is returned unwrapped; otherwise the refreshed object is returned |
| TokenProperties.LambdaContextBranch | src/deep-security/lib/Token.js:107-118 | with a Lambda context the refresh and the save are never called; the store is asked once; a store error is returned and the credentials are kept; otherwise the loaded value is installed and returned; ambient credentials become the populated copy, or the call throws when there are none |
| TokenProperties.FederatedThenCached | src/deep-security/lib/Token.js:186-188 | federated credentials carrying an `IdentityId` fix the identity id and make the next load a cache hit with no collaborator call |
| TokenProperties.FederationRepeatsWithoutIdentityId | src/deep-security/lib/Token.js:129-134 | after a failed refresh, or one that gave no `IdentityId`, the next load federates again |
| TokenProperties.NullIdentityIdIsCached | src/deep-security/lib/Token.js:115-117 | a store record whose `IdentityId` holds null is valid: the next load is a call-free cache hit, identityId is null despite the Lambda context, and the user provider is asked with null |
| TokenProperties.StoreRecordWithoutIdentityIdReloads | src/deep-security/lib/Token.js:110-118 | a store record that is null or has no `IdentityId` is not cached: the next load asks the store again |
| TokenProperties.ValidCredentialsAreStable | src/deep-security/lib/Token.js:101-105 | once credentials are valid, any number of loads returns them with no collaborator call and no change of state |
| TokenProperties.GetUserKeepsEverythingElse | src/deep-security/lib/Token.js:207-226 | getUser changes nothing but the memoized user |
| TokenProperties.GetUserAnonymous | src/deep-security/lib/Token.js:208-211 | an anonymous token yields null and never asks the user provider |
| TokenProperties.GetUserWithoutProvider | src/deep-security/lib/Token.js:213-214 | a non-anonymous token with no user memoized and no user provider throws a TypeError with no change and no call |
| TokenProperties.GetUserMemoized | src/deep-security/lib/Token.js:213-225 | a memoized user is returned without asking the user provider |
| TokenProperties.GetUserLookup | src/deep-security/lib/Token.js:213-222 | otherwise the provider is asked once with the current identity id; its answer is passed on as it is and memoized only when it is a user |
| TokenProperties.FalsyUserIsLookedUpAgain | src/deep-security/lib/Token.js:214-219 | a falsy answer leaves the state unchanged, so the next getUser asks the provider again |
| TokenProperties.TruthyUserIsMemoized | src/deep-security/lib/Token.js:214-225 | a user answer is returned and returned again by the next getUser without a provider call |
| TokenProperties.MemoizedUserIsStable | src/deep-security/lib/Token.js:213-225 | once a user is memoized, any number of getUser calls return it with no provider call |
| TokenProperties.AnonymousNeverLooksUp | src/deep-security/lib/Token.js:207-211 | an anonymous token never asks the provider, however often getUser is called |
| TokenProperties.FederatedScenario | src/deep-security/lib/Token.js:120-144 | provider google/tok and a refresh that gives `IdentityId` id-1: the request's `Logins` map is {google: tok}, the refreshed credentials are returned, and identityId becomes id-1 |
| TokenProperties.LambdaContextScenario | src/deep-security/lib/Token.js:161-171 | a Lambda context with identity ctx-id gives identityId ctx-id before any load |
| TokenObject.Token.constructor | src/deep-security/lib/Token.js:19-48 | all fields start null; the Cognito region is set to RegionOf(pool id); ambient credentials are untouched |
| TokenObject.Token.Create | src/deep-security/lib/Token.js:231-233 | a fresh token in the initial state |
| TokenObject.Token.CreateFromIdentityProvider | src/deep-security/lib/Token.js:239-244 | a fresh token whose only configuration is the given provider |
| TokenObject.Token.CreateFromLambdaContext | src/deep-security/lib/Token.js:250-255 | a fresh token whose only configuration is the given Lambda context |
| TokenObject.Token.SetIdentityProvider | src/deep-security/lib/Token.js:80-82 | sets the provider and nothing else |
| TokenObject.Token.SetLambdaContext | src/deep-security/lib/Token.js:94-96 | sets the Lambda context and nothing else |
| TokenObject.Token.SetUserProvider | src/deep-security/lib/Token.js:200-202 | sets the user provider and nothing else |
| TokenObject.Token.PopulateAwsCredentials | src/deep-security/lib/Token.js:56-68 | replaces the ambient credentials by Populate's copy, or throws with nothing changed |
| TokenObject.Token.LoadCredentials | src/deep-security/lib/Token.js:101-147 | the new fields, ambient credentials, callback value and collaborator calls are those of TokenState.LoadCredentials on the old state |
| TokenObject.Token.GetUser | src/deep-security/lib/Token.js:207-226 | the new memoized user, callback value and collaborator calls are those of TokenState.GetUser on the old state |
| TokenObject.LoadSeenByOtherTokens | src/deep-security/lib/Token.js:136 | a load by one token replaces the ambient credentials that every token sharing the SDK configuration sees, and leaves the other token's own fields unchanged |

## Left out

- SDK configuration: `AWS.config.maxRetries = 3` (line 40) is not modelled. The
  identical regions for `cognitoidentity` and `cognitosync` (lines 44-47) are one
  field, `SdkConfig.cognitoRegion`.
- `AWS.CognitoIdentityCredentials` and `refresh` are a network library that is
  not part of this model. A credentials object is reduced to three things: the
  request it was built with, its keys, and its own `IdentityId` property. A
  refresh is an abstract outcome. Whether a real refreshed object has an own
  `IdentityId` property is decided by that outcome (`Refreshed.identityId`).
- `_populateAwsCredentials` only records that the ambient object is replaced.
  The replacement carries the pool id, the previous keys and the current
  identity id, not the structure of the SDK object.
- `CredentialsManager`, `UserProvider`, `IdentityProvider` and `AuthException`
  are not part of this model. They appear only through their interfaces. The
  record passed to the save callback is ignored, as the source ignores it.
- Callbacks and asynchrony: each call runs to completion, and its callback value
  is the method's result. The value `loadCredentials` returns from its callback
  on a cache hit is not modelled.
- The getters `identityProvider`, `lambdaContext` and `credentials` (lines
  73-96, 176-178) only read a field; the class fields are read directly.
- A Lambda context without an `identity` object, which would make the
  `identityId` getter throw, is not modelled. A context always carries
  `cognitoIdentityId`.
- Truthiness: a provider, context, user or credentials object is either present
  or absent. A falsy non-null value counts as absent. The value of an
  `IdentityId` property is a string or null; undefined counts as null.
- TokenObject.Token.CreateFromIdentityProvider: takes a provider, not a nullable
  one. Passing `null` in the source gives the same token as `create`.
- TokenObject.Token.CreateFromLambdaContext: takes a context, not a nullable one,
  for the same reason.
- `new this(...)` in the factories, which lets subclasses inherit them, is
  modelled as constructing a `Token`.
- Expiry of credentials is not checked. The source does not check it either.
