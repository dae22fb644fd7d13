/**
  * The API request authorizer (src/daemon/auth/authorizer.rs).
  *
  * The concrete providers (admin token, config file users, OpenID Connect) and
  * the Oso-backed policy are not part of this model: each provider is the
  * record of what its four operations answer, and the policy is the oracle
  * that answers permission questions. Requests and HTTP responses are opaque.
  */
module Authorization {
  import opened Results
  import DaemonConfig

  /** An incoming HTTP request; only the providers look inside it. */
  type Request

  /** The response a provider builds for login or logout discovery. */
  type HttpResponse

  type Token = string

  /** The errors this component raises or passes on. */
  datatype Error =
    | ApiInsufficientRights(reason: string)
    | ApiAuthError(detail: string)
    | Other(detail: string)

  datatype Permission = Login | Named(name: string)

  datatype Resource = NoResource | Handle(name: string)

  /** Who an actor claims to be: a name, whether it is a user, its attributes and a deferred authentication error. */
  datatype ActorDef = ActorDef(name: string, isUser: bool, attributes: map<string, string>, authError: Option<Error>)

  /** ACTOR_DEF_ANON: the anonymous actor, carrying no error. */
  const AnonymousActorDef := ActorDef("anonymous", false, map[], None)

  /** `ActorDef::user(id, attributes, None)`. */
  function UserActorDef(id: string, attributes: map<string, string>): ActorDef {
    ActorDef(id, true, attributes, None)
  }

  /** `ActorDef::with_auth_error`. */
  function WithAuthError(def: ActorDef, e: Error): ActorDef {
    def.(authError := Some(e))
  }

  /** The policy snapshot, as the oracle that answers `is_allowed`. */
  datatype AuthPolicy = AuthPolicy(isAllowed: (ActorDef, Permission, Resource) -> Result<bool, Error>)

  /** An actor: a definition bound to the policy it is checked against. */
  datatype Actor = Actor(def: ActorDef, policy: AuthPolicy) {
    function IsAllowed(p: Permission, r: Resource): Result<bool, Error> {
      policy.isAllowed(def, p, r)
    }
  }

  datatype LoggedInUser = LoggedInUser(token: Token, id: string, attributes: map<string, string>)

  /** The credentials a client may present. */
  datatype Auth =
    | Bearer(token: Token)
    | AuthorizationCode(code: Token, state: string, nonce: string, csrfTokenHash: string)
    | IdAndPasswordHash(id: string, passwordHash: Token)
  {
    static function NewBearer(token: Token): (a: Auth)
      ensures a.Bearer? && a.token == token
    {
      Bearer(token)
    }

    static function NewAuthorizationCode(code: Token, state: string, nonce: string, csrfTokenHash: string): (a: Auth)
      ensures a.AuthorizationCode? && a.code == code && a.state == state && a.nonce == nonce && a.csrfTokenHash == csrfTokenHash
    {
      AuthorizationCode(code, state, nonce, csrfTokenHash)
    }

    static function NewIdAndPasswordHash(id: string, passwordHash: Token): (a: Auth)
      ensures a.IdAndPasswordHash? && a.id == id && a.passwordHash == passwordHash
    {
      IdAndPasswordHash(id, passwordHash)
    }
  }

  /** The constructors of `Auth` never confuse two kinds of credential, and keep what they are given. */
  lemma AuthConstructorsDistinct(t: Token, code: Token, state: string, nonce: string, csrf: string, id: string, hash: Token)
    ensures Auth.NewBearer(t) != Auth.NewAuthorizationCode(code, state, nonce, csrf)
    ensures Auth.NewBearer(t) != Auth.NewIdAndPasswordHash(id, hash)
    ensures Auth.NewAuthorizationCode(code, state, nonce, csrf) != Auth.NewIdAndPasswordHash(id, hash)
    ensures forall t' :: Auth.NewBearer(t) == Auth.NewBearer(t') ==> t == t'
    ensures forall id', hash' :: Auth.NewIdAndPasswordHash(id, hash) == Auth.NewIdAndPasswordHash(id', hash') ==> id == id' && hash == hash'
    ensures forall c', s', n', h' :: Auth.NewAuthorizationCode(code, state, nonce, csrf) == Auth.NewAuthorizationCode(c', s', n', h') ==>
              code == c' && state == s' && nonce == n' && csrf == h'
  {
  }

  /** What one provider answers to each of the four operations. */
  datatype ProviderOps = ProviderOps(
    authenticate: Request -> Result<Option<ActorDef>, Error>,
    loginUrl: Result<HttpResponse, Error>,
    login: Request -> Result<LoggedInUser, Error>,
    logout: Request -> Result<HttpResponse, Error>)

  /** The closed set of providers; `ConfigFile` and `OpenIdConnect` exist only in the multi-user build. */
  datatype AuthProvider =
    | Token(provider: ProviderOps)
    | ConfigFile(provider: ProviderOps)
    | OpenIdConnect(provider: ProviderOps)
  {
    function Authenticate(req: Request): (r: Result<Option<ActorDef>, Error>)
      ensures r == provider.authenticate(req)
    {
      match this
      case Token(p) => p.authenticate(req)
      case ConfigFile(p) => p.authenticate(req)
      case OpenIdConnect(p) => p.authenticate(req)
    }

    function GetLoginUrl(): (r: Result<HttpResponse, Error>)
      ensures r == provider.loginUrl
    {
      match this
      case Token(p) => p.loginUrl
      case ConfigFile(p) => p.loginUrl
      case OpenIdConnect(p) => p.loginUrl
    }

    function Login(req: Request): (r: Result<LoggedInUser, Error>)
      ensures r == provider.login(req)
    {
      match this
      case Token(p) => p.login(req)
      case ConfigFile(p) => p.login(req)
      case OpenIdConnect(p) => p.login(req)
    }

    function Logout(req: Request): (r: Result<HttpResponse, Error>)
      ensures r == provider.logout(req)
    {
      match this
      case Token(p) => p.logout(req)
      case ConfigFile(p) => p.logout(req)
      case OpenIdConnect(p) => p.logout(req)
    }
  }

  /**
    * The test `Authorizer::new` makes, as written: it downcasts a reference to
    * the `AuthProvider` enum to the admin token provider type, a different
    * type, so the downcast never succeeds.
    */
  function IsAdminTokenProviderAsWritten(p: AuthProvider): (b: bool)
    ensures !b
  {
    false
  }

  /** The test the documentation of `Authorizer::new` describes: is the primary the admin token provider? */
  function IsAdminTokenProvider(p: AuthProvider): (b: bool)
    ensures b <==> p.Token?
  {
    p.Token?
  }

  /** The attributes not named in `privateAttributes`, with their values. */
  function VisibleAttributes(attributes: map<string, string>, privateAttributes: seq<string>): (m: map<string, string>)
    ensures forall k :: k in m <==> k in attributes && k !in privateAttributes
    ensures forall k :: k in m ==> m[k] == attributes[k]
  {
    map k | k in attributes && k !in privateAttributes :: attributes[k]
  }

  /** With nothing private every attribute stays; with every key private nothing does. */
  lemma VisibleAttributesExtremes(attributes: map<string, string>, privateAttributes: seq<string>)
    ensures privateAttributes == [] ==> VisibleAttributes(attributes, privateAttributes) == attributes
    ensures (forall k :: k in attributes ==> k in privateAttributes) ==> VisibleAttributes(attributes, privateAttributes) == map[]
  {
  }

  const LoginDeniedPrefix := "Login denied for user '"

  /** The reason a refused login gives: it names the user. */
  function LoginDeniedReason(id: string): (reason: string)
    ensures |reason| > |LoginDeniedPrefix| + |id|
    ensures reason[..|LoginDeniedPrefix|] == LoginDeniedPrefix
    ensures reason[|LoginDeniedPrefix|..|LoginDeniedPrefix| + |id|] == id
  {
    LoginDeniedPrefix + id + "': User is not permitted to 'LOGIN'"
  }

  /** The authorizer: set up once and never changed afterwards. */
  datatype Authorizer = Authorizer(
    primaryProvider: AuthProvider,
    legacyProvider: Option<ProviderOps>,
    policy: AuthPolicy,
    privateAttributes: seq<string>)
  {
    /**
      * `Authorizer::new`, as written. `adminTokenProvider` is the provider
      * `AdminTokenAuthProvider::new(config)` builds; `policy` is the outcome of
      * `AuthPolicy::new(config)`; `multiUser` is the multi-user build feature.
      */
    static function New(config: DaemonConfig.Config, primary: AuthProvider, adminTokenProvider: ProviderOps,
                        policy: Result<AuthPolicy, Error>, multiUser: bool): (r: Result<Authorizer, Error>)
      ensures policy.Failure? ==> r == Failure(policy.error)
      ensures policy.Success? ==> r.Success? && r.value.primaryProvider == primary && r.value.policy == policy.value
      ensures r.Success? ==> r.value.legacyProvider == Some(adminTokenProvider)
      ensures r.Success? && multiUser ==> r.value.privateAttributes == config.authPrivateAttributes
      ensures r.Success? && !multiUser ==> r.value.privateAttributes == ["role"]
    {
      var legacy := if IsAdminTokenProviderAsWritten(primary) then None else Some(adminTokenProvider);
      var privateAttributes := if multiUser then config.authPrivateAttributes else ["role"];
      match policy
      case Failure(e) => Failure(e)
      case Success(p) => Success(Authorizer(primary, legacy, p, privateAttributes))
    }

    /** `Authorizer::new` with the documented rule: a legacy provider only beside some other primary provider. */
    static function NewIntended(config: DaemonConfig.Config, primary: AuthProvider, adminTokenProvider: ProviderOps,
                                policy: Result<AuthPolicy, Error>, multiUser: bool): (r: Result<Authorizer, Error>)
      ensures policy.Failure? ==> r == Failure(policy.error)
      ensures policy.Success? ==> r.Success? && r.value.primaryProvider == primary && r.value.policy == policy.value
      ensures r.Success? ==> (r.value.legacyProvider.Some? <==> !primary.Token?)
      ensures r.Success? && r.value.legacyProvider.Some? ==> r.value.legacyProvider.value == adminTokenProvider
      ensures r.Success? && multiUser ==> r.value.privateAttributes == config.authPrivateAttributes
      ensures r.Success? && !multiUser ==> r.value.privateAttributes == ["role"]
    {
      var legacy := if IsAdminTokenProvider(primary) then None else Some(adminTokenProvider);
      var privateAttributes := if multiUser then config.authPrivateAttributes else ["role"];
      match policy
      case Failure(e) => Failure(e)
      case Success(p) => Success(Authorizer(primary, legacy, p, privateAttributes))
    }

    /** `actor_from_def`: the definition bound to this authorizer's policy. */
    function ActorFromDef(def: ActorDef): (a: Actor)
      ensures a.def == def && a.policy == policy
    {
      Actor(def, policy)
    }

    /** Whether the legacy provider alone identifies the caller of `req`. */
    predicate LegacyAuthenticated(req: Request) {
      legacyProvider.Some? && legacyProvider.value.authenticate(req).Success? && legacyProvider.value.authenticate(req).value.Some?
    }

    /**
      * The actor `actor_from_request` resolves: the legacy provider's identity
      * when it finds one, otherwise whatever the primary provider decides,
      * with "no credential" and errors turned into the anonymous actor.
      */
    function Resolve(req: Request): (actor: Actor)
      ensures actor.policy == policy
      ensures LegacyAuthenticated(req) ==> actor.def == legacyProvider.value.authenticate(req).value.value
      ensures !LegacyAuthenticated(req) ==>
                match primaryProvider.provider.authenticate(req)
                case Success(Some(d)) => actor.def == d
                case Success(None) => actor.def == AnonymousActorDef
                case Failure(e) => actor.def == AnonymousActorDef.(authError := Some(e))
    {
      var outcome := if LegacyAuthenticated(req) then legacyProvider.value.authenticate(req)
                     else primaryProvider.Authenticate(req);
      match outcome
      case Success(Some(def)) => ActorFromDef(def)
      case Success(None) => ActorFromDef(AnonymousActorDef)
      case Failure(e) => ActorFromDef(WithAuthError(AnonymousActorDef, e))
    }

    /**
      * `actor_from_request`. It never fails; `primaryCalled` records whether
      * the primary provider was asked.
      */
    method ActorFromRequest(req: Request) returns (actor: Actor, ghost primaryCalled: bool)
      ensures actor == Resolve(req)
      ensures primaryCalled <==> !LegacyAuthenticated(req)
      ensures LegacyAuthenticated(req) ==> actor.def == legacyProvider.value.authenticate(req).value.value
    {
      // Try the legacy provider first, if any.
      var authenticateRes := match legacyProvider
        case Some(provider) => provider.authenticate(req)
        case None => Success(None);

      // Ask the primary provider unless the legacy one found the caller.
      primaryCalled := false;
      match authenticateRes {
        case Success(Some(_)) =>
        case _ =>
          authenticateRes := primaryProvider.Authenticate(req);
          primaryCalled := true;
      }

      actor := match authenticateRes
        case Success(Some(def)) => ActorFromDef(def)
        case Success(None) => ActorFromDef(AnonymousActorDef)
        case Failure(e) => ActorFromDef(WithAuthError(AnonymousActorDef, e));
    }

    /** When the legacy provider does not identify the caller, its answer is discarded: the result is as without it. */
    lemma LegacyFailureIsDiscarded(req: Request)
      requires !LegacyAuthenticated(req)
      ensures Resolve(req) == this.(legacyProvider := None).Resolve(req)
    {
    }

    /** An error of the legacy provider reaches the actor only if the primary provider raised the same error. */
    lemma LegacyErrorNeverSurfaces(req: Request, e: Error)
      requires legacyProvider.Some? && legacyProvider.value.authenticate(req) == Failure(e)
      requires Resolve(req).def.authError == Some(e)
      ensures primaryProvider.Authenticate(req) == Failure(e)
          || primaryProvider.Authenticate(req) == Success(Some(Resolve(req).def))
    {
    }

    /** `get_login_url`: the primary provider's answer; the legacy provider is not consulted. */
    function GetLoginUrl(): (r: Result<HttpResponse, Error>)
      ensures r == primaryProvider.provider.loginUrl
    {
      primaryProvider.GetLoginUrl()
    }

    /** `logout`: the primary provider's answer; the legacy provider is not consulted. */
    function Logout(req: Request): (r: Result<HttpResponse, Error>)
      ensures r == primaryProvider.provider.logout(req)
    {
      primaryProvider.Logout(req)
    }

    /**
      * `login`: the primary provider checks the credentials, the policy must
      * allow the user to LOGIN, and the private attributes are removed.
      */
    function Login(req: Request): (r: Result<LoggedInUser, Error>)
      ensures primaryProvider.provider.login(req).Failure? ==> r == Failure(primaryProvider.provider.login(req).error)
      ensures primaryProvider.provider.login(req).Success? ==>
                var user := primaryProvider.provider.login(req).value;
                var allowed := policy.isAllowed(UserActorDef(user.id, user.attributes), Permission.Login, NoResource);
                && (allowed.Failure? ==> r == Failure(allowed.error))
                && (allowed == Success(false) ==> r == Failure(ApiInsufficientRights(LoginDeniedReason(user.id))))
                && (allowed == Success(true) ==>
                      && r.Success?
                      && r.value.token == user.token
                      && r.value.id == user.id
                      && (forall k :: k in r.value.attributes <==> k in user.attributes && k !in privateAttributes)
                      && (forall k :: k in r.value.attributes ==> r.value.attributes[k] == user.attributes[k]))
      ensures r.Success? ==> primaryProvider.provider.login(req).Success?
    {
      match primaryProvider.Login(req)
      case Failure(e) => Failure(e)
      case Success(user) =>
        var actor := ActorFromDef(UserActorDef(user.id, user.attributes));
        match actor.IsAllowed(Permission.Login, NoResource)
        case Failure(e) => Failure(e)
        case Success(false) => Failure(ApiInsufficientRights(LoginDeniedReason(user.id)))
        case Success(true) => Success(LoggedInUser(user.token, user.id, VisibleAttributes(user.attributes, privateAttributes)))
    }
  }

  /** The as-written constructor gives a token-scheme primary a legacy provider, which the documented rule does not. */
  lemma LegacyBuiltForTokenPrimary(config: DaemonConfig.Config, p: ProviderOps, adminTokenProvider: ProviderOps,
                                   policy: AuthPolicy, multiUser: bool)
    ensures Authorizer.New(config, Token(p), adminTokenProvider, Success(policy), multiUser).value.legacyProvider.Some?
    ensures Authorizer.NewIntended(config, Token(p), adminTokenProvider, Success(policy), multiUser).value.legacyProvider.None?
  {
  }

  /**
    * The extra legacy provider is harmless: when it is the same admin token
    * provider as the primary, both constructors resolve every request to the
    * same actor.
    */
  lemma AsWrittenResolvesAsIntended(config: DaemonConfig.Config, primary: AuthProvider, adminTokenProvider: ProviderOps,
                                    policy: AuthPolicy, multiUser: bool, req: Request)
    requires primary.Token? ==> primary.provider == adminTokenProvider
    ensures Authorizer.New(config, primary, adminTokenProvider, Success(policy), multiUser).value.Resolve(req)
         == Authorizer.NewIntended(config, primary, adminTokenProvider, Success(policy), multiUser).value.Resolve(req)
  {
  }

  /** Without a legacy provider and without a credential, the caller is anonymous and carries no error. */
  lemma NoCredentialIsAnonymous(a: Authorizer, req: Request)
    requires a.legacyProvider.None? && a.primaryProvider.Authenticate(req) == Success(None)
    ensures a.Resolve(req) == Actor(AnonymousActorDef, a.policy)
  {
  }
}
