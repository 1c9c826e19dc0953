/**
 * The OmniAuth strategy (OmniAuth::Strategies::Smart): the request phase that turns an
 * EHR launch into a redirect to the authorize endpoint, and the callback phase that checks
 * the launch session, exchanges the code and assembles the auth hash sections.
 *
 * The network, the JWT decoder, SHA-256 and the random sources are parameters: `fetch`
 * answers the decoded conformance statement at a URL, `post` the token endpoint's
 * response, `decode` the identity token's claims, `sha256` a digest, and `stateId` /
 * `random` are the values `SecureRandom` would have drawn.
 */
module Strategy {
  import opened Wrappers
  import opened Values
  import opened Clients
  import opened Backends
  import opened Session
  import Conformance
  import Authorization
  import Pkce
  import Segments

  const DefaultScope := "patient/Patient.read user/Practitioner.read launch openid profile online_scope fhirUser"
  const SetupParamsKey := "omniauth.setup.params"
  const CodeVerifierKey := "omniauth.pkce.code_verifier"

  /** The strategy's options: `backend` (possibly unset) and `default_scope`. */
  datatype Options = Options(backend: Option<Backend>, defaultScope: string)

  /** `request.params`; nested (bracketed) parameters are not modelled. */
  type Params = map<string, string>

  function Param?(params: Params, name: string): Option<string> {
    if name in params then Some(params[name]) else None
  }

  /**
   * Why a phase failed. The first seven are the strategy's `fail!` calls; `Raised` is an
   * exception escaping from a callee. `CallbackError` and `StateIncorrect` are reported by
   * an inner `fail!` with the message and then by `fail!(:no_callback_errors?)` resp.
   * `fail!(:state_is_correct?)`, whose key is the final error type.
   */
  datatype Failure =
    | NoBackendDefined
    | NoIssuer                              // "Unknown issuer. Is your organization configured correctly?"
    | UnknownIssuer                         // "Unknown issuer."
    | CallbackError(description: Option<string>)
    | StateIncorrect(check: LaunchCheck)
    | NoSmartClient
    | NoBackendConfigured(issuer: Value)
    | CouldNotGetToken                      // "An error occurred. Could not get token."
    | Raised(error: Error)

  /** What a phase leaves behind: the session store as written, and its result. */
  datatype Outcome<T> = Outcome(session: Store, result: Result<T, Failure>)

  /** The redirect to the authorize endpoint, before percent-encoding. */
  datatype Redirect = Redirect(authorizeUrl: string, query: seq<Param>)

  // ---------------------------------------------------------------------------------------
  // Request phase

  /** The parameters other than `iss` and `launch`, handed to the backend and kept in the session. */
  function OtherParams(params: Params): (v: Value)
    ensures v.Hash? && v.entries.Keys == params.Keys - {"iss", "launch"}
    ensures forall k :: k in v.entries ==> v.entries[k] == Str(params[k])
  {
    Hash(map k | k in params && k != "iss" && k != "launch" :: Str(params[k]))
  }

  /** `client.scope || options[:default_scope]`. */
  function RequestedScope(client: Client, defaultScope: string): (scope: string)
    ensures client.scope.Some? ==> scope == client.scope.value
    ensures client.scope.None? ==> scope == defaultScope
  {
    client.scope.GetOr(defaultScope)
  }

  /** `launch_context_id`: the `launch` parameter, or the empty string. */
  function LaunchContextId(params: Params): (id: string)
    ensures "launch" in params ==> id == params["launch"]
    ensures "launch" !in params ==> id == ""
  {
    Param?(params, "launch").GetOr("")
  }

  /** The authorize request's parameters, in the order the source lists them. */
  function AuthorizeParams(client: Client, scope: string, redirectUri: string, launch: string,
                           stateId: string, challenge: Option<string>): (ps: seq<Param>)
    ensures Names(ps) == ["response_type", "client_id", "scope", "redirect_uri", "aud", "launch", "state"]
                         + (if challenge.Some? then ["code_challenge", "code_challenge_method"] else [])
  {
    [Param("response_type", Some("code")),
     Param("client_id", client.clientId),
     Param("scope", Some(scope)),
     Param("redirect_uri", Some(redirectUri)),
     Param("aud", client.issuer),
     Param("launch", Some(launch)),
     Param("state", Some(stateId))]
    + (match challenge
       case None => []
       case Some(c) => [Param("code_challenge", Some(c)), Param("code_challenge_method", Some("S256"))])
  }

  /**
   * `smart_url_for(client, challenge)`: read the conformance statement, record the launch
   * in the session, and build the redirect. Escaping the authorize URL raises unless it is
   * a String.
   */
  function SmartUrlFor(opts: Options, session: Store, params: Params, redirectUri: string, client: Client,
                       challenge: Option<string>, fetch: Conformance.Fetch, stateId: string): (r: Outcome<Redirect>)
    ensures Conformance.FromServer(client.issuer, fetch).Failure? ==>
      r == Outcome(session, Failure(Raised(Conformance.FromServer(client.issuer, fetch).error)))
    ensures Conformance.FromServer(client.issuer, fetch).Success? ==>
      var info := Conformance.FromServer(client.issuer, fetch).value;
      && r.session == Launching(session, client, info, RequestedScope(client, opts.defaultScope), stateId)
      && (r.result.Success? <==> info.authorizeUrl.Str?)
      && (r.result.Success? ==>
            r.result.value == Redirect(info.authorizeUrl.s,
              AuthorizeParams(client, RequestedScope(client, opts.defaultScope), redirectUri,
                              LaunchContextId(params), stateId, challenge)))
  {
    match Conformance.FromServer(client.issuer, fetch)
    case Failure(e) => Outcome(session, Failure(Raised(e)))
    case Success(info) =>
      var scope := RequestedScope(client, opts.defaultScope);
      var launched := Launching(session, client, info, scope, stateId);
      if !info.authorizeUrl.Str? then Outcome(launched, Failure(Raised(NoMethodError)))
      else
        var query := AuthorizeParams(client, scope, redirectUri, LaunchContextId(params), stateId, challenge);
        Outcome(launched, Success(Redirect(info.authorizeUrl.s, query)))
  }

  /**
   * `request_phase`. A missing or unknown issuer fails before anything is fetched or
   * written. A known client must answer `use_pkce`: when it holds, a verifier is drawn
   * from `random`, stored in the session, and its challenge joins the redirect.
   */
  function RequestPhase(opts: Options, session: Store, params: Params, redirectUri: string,
                        fetch: Conformance.Fetch, sha256: string -> seq<Pkce.Byte>,
                        stateId: string, random: seq<Pkce.Byte>): (r: Outcome<Redirect>)
    ensures opts.backend.None? ==> r == Outcome(session, Failure(NoBackendDefined))
    ensures opts.backend.Some? && "iss" !in params ==> r == Outcome(session, Failure(NoIssuer))
    ensures opts.backend.Some? && "iss" in params ==>
      var found := FindByIssuer(opts.backend.value, Some(params["iss"]), OtherParams(params));
      && (found.Failure? ==> r == Outcome(session, Failure(Raised(found.error))))
      && (found == Success(None) ==> r == Outcome(session, Failure(UnknownIssuer)))
      && (found.Success? && found.value.Some? && found.value.value.usePkce.None? ==>
            r == Outcome(session[SetupParamsKey := OtherParams(params)], Failure(Raised(NoMethodError))))
  {
    if opts.backend.None? then Outcome(session, Failure(NoBackendDefined))
    else if "iss" !in params then Outcome(session, Failure(NoIssuer))
    else
      var others := OtherParams(params);
      match FindByIssuer(opts.backend.value, Some(params["iss"]), others)
      case Failure(e) => Outcome(session, Failure(Raised(e)))
      case Success(None) => Outcome(session, Failure(UnknownIssuer))
      case Success(Some(client)) =>
        var withParams := session[SetupParamsKey := others];
        match client.usePkce
        case None => Outcome(withParams, Failure(Raised(NoMethodError)))
        case Some(false) => SmartUrlFor(opts, withParams, params, redirectUri, client, None, fetch, stateId)
        case Some(true) =>
          var verifier := Pkce.CodeVerifier(random);
          var challenge := Pkce.CodeChallenge(sha256(verifier));
          SmartUrlFor(opts, withParams[CodeVerifierKey := Str(verifier)], params, redirectUri, client,
                      Some(challenge), fetch, stateId)
  }

  // ---------------------------------------------------------------------------------------
  // Callback phase

  /** The `credentials` section. */
  datatype Credentials = Credentials(token: Value, idToken: Value, expires: Value, expiresAt: Value)

  /** The `extra` section. */
  datatype Extra = Extra(
    orgId: Value,
    patientId: Value,
    practitionerId: Value,
    fhirUserUri: Value,
    fhirUri: Value,
    styleUrl: Value,
    scopeGranted: Value,
    refreshToken: Value,
    ehrDomain: Value)

  /** What a successful callback hands to OmniAuth: `uid`, `credentials` and `extra`. */
  datatype AuthResult = AuthResult(uid: Value, credentials: Credentials, extra: Extra)

  /** `state_is_correct?`: a passing check marks the launch as launched. */
  function StateIsCorrect(session: Store, requestState: Value): (r: (Store, LaunchCheck))
    ensures r.1 == IsLaunching(session, requestState)
    ensures r.1.Ok? ==> r.0 == Launched(session)
    ensures !r.1.Ok? ==> r.0 == session
  {
    var check := IsLaunching(session, requestState);
    if check.Ok? then (Launched(session), check) else (session, check)
  }

  /** `@fhir_user_uri&.split('/')&.last`. */
  function PractitionerId(fhirUser: Value): (r: Result<Value, Error>)
    ensures fhirUser.Nil? ==> r == Success(Nil)
    ensures fhirUser.Str? ==> r == Success(FromOption(Segments.LastSegment(fhirUser.s)))
    ensures !fhirUser.Nil? && !fhirUser.Str? ==> r == Failure(NoMethodError)
  {
    match fhirUser
    case Nil => Success(Nil)
    case Str(s) => Success(FromOption(Segments.LastSegment(s)))
    case _ => Failure(NoMethodError)
  }

  /** `v[key]` on a value already known to answer `[]`. */
  function Field(v: Value, key: string): (r: Value)
    requires Indexable(v)
    ensures v.Hash? ==> r == Get(v.entries, key)
  {
    Index(v, key).value
  }

  /** The identity token's decoder (`JWT.decode(token, nil, false, aud: client_id, ...)[0]`); None when it raises. */
  type Decoder = (Value, Option<string>) -> Option<Value>

  /**
   * The callback's work from the token response on: decode the identity token, derive the
   * practitioner id, and fill in the three sections.
   */
  function BuildResult(response: Value, client: Client, decode: Decoder): (r: Result<AuthResult, Failure>)
    requires Indexable(response)
    ensures var claims := decode(Field(response, "id_token"), client.clientId);
      && (claims.None? ==> r == Failure(Raised(DecodeError)))
      && (claims.Some? && (claims.value.Nil? || claims.value.Bool?) ==> r == Failure(Raised(NoMethodError)))
      && (claims.Some? && (claims.value.Int? || claims.value.Arr?) ==> r == Failure(Raised(TypeError)))
      && (claims.Some? && Indexable(claims.value) ==>
            var fhirUser := Field(claims.value, "fhirUser");
            && (fhirUser.Nil? || fhirUser.Str? <==> r.Success?)
            && (!fhirUser.Nil? && !fhirUser.Str? ==> r == Failure(Raised(NoMethodError))))
      && (r.Success? ==>
            && claims.Some? && Indexable(claims.value)
            && r.value.uid == Field(claims.value, "sub")
            && r.value.credentials == Credentials(Field(response, "access_token"), Field(response, "id_token"),
                                                  Bool(true), Field(claims.value, "iat"))
            && r.value.extra.fhirUserUri == Field(claims.value, "fhirUser")
            && PractitionerId(Field(claims.value, "fhirUser")) == Success(r.value.extra.practitionerId)
            && r.value.extra.orgId == FromOption(client.orgId)
            && r.value.extra.fhirUri == FromOption(client.issuer)
            && r.value.extra.patientId == Field(response, "patient")
            && r.value.extra.styleUrl == Field(response, "smart_style_url")
            && r.value.extra.scopeGranted == Field(response, "scope")
            && r.value.extra.refreshToken == Field(response, "refresh_token")
            && (Truthy(Field(response, "domain")) ==> r.value.extra.ehrDomain == Field(response, "domain"))
            && (!Truthy(Field(response, "domain")) ==> r.value.extra.ehrDomain == Field(response, "ehr_domain")))
  {
    var idToken := Field(response, "id_token");
    match decode(idToken, client.clientId)
    case None => Failure(Raised(DecodeError))
    case Some(claims) =>
      match Index(claims, "fhirUser")
      case Failure(e) => Failure(Raised(e))
      case Success(fhirUser) =>
        match PractitionerId(fhirUser)
        case Failure(e) => Failure(Raised(e))
        case Success(practitioner) =>
          var credentials := Credentials(Field(response, "access_token"), idToken, Bool(true), Field(claims, "iat"));
          var extra := Extra(
            FromOption(client.orgId),
            Field(response, "patient"),
            practitioner,
            fhirUser,
            FromOption(client.issuer),
            Field(response, "smart_style_url"),
            Field(response, "scope"),
            Field(response, "refresh_token"),
            Or(Field(response, "domain"), Field(response, "ehr_domain")));
          Success(AuthResult(Field(claims, "sub"), credentials, extra))
  }

  /**
   * Handling the token response: a truthy `"error"` aborts the callback with "Could not get
   * token"; otherwise the result is assembled. (The source does not return after this
   * `fail!`; see `AssembleAsWritten`.)
   */
  function Assemble(response: Value, client: Client, decode: Decoder): (r: Result<AuthResult, Failure>)
    ensures !Indexable(response) ==> r == Failure(Raised(Index(response, "error").error))
    ensures Indexable(response) && Truthy(Field(response, "error")) ==> r == Failure(CouldNotGetToken)
    ensures r.Success? ==> Indexable(response) && !Truthy(Field(response, "error"))
    ensures Indexable(response) && !Truthy(Field(response, "error")) ==> r == BuildResult(response, client, decode)
  {
    match Index(response, "error")
    case Failure(e) => Failure(Raised(e))
    case Success(error) =>
      if Truthy(error) then Failure(CouldNotGetToken) else BuildResult(response, client, decode)
  }

  /**
   * The token response handling as the source writes it: the result of `fail!` is
   * discarded, so a response reporting an error still goes on to decoding and assembly.
   */
  function AssembleAsWritten(response: Value, client: Client, decode: Decoder): (r: Result<AuthResult, Failure>)
    ensures !Indexable(response) ==> r == Failure(Raised(Index(response, "error").error))
    ensures Indexable(response) ==> r == BuildResult(response, client, decode)
  {
    match Index(response, "error")
    case Failure(e) => Failure(Raised(e))
    case Success(_) => BuildResult(response, client, decode)
  }

  /**
   * The auth hash OmniAuth builds from the strategy's `uid`, `credentials` and `extra`
   * blocks: provider "smart", an empty info section, symbol keys stored as strings.
   */
  function AuthHashOf(r: AuthResult): (h: map<string, Value>)
    ensures h.Keys == {"provider", "uid", "info", "credentials", "extra"}
    ensures h["provider"] == Str("smart") && h["uid"] == r.uid && h["info"] == Hash(map[])
  {
    map["provider" := Str("smart"),
        "uid" := r.uid,
        "info" := Hash(map[]),
        "credentials" := Hash(map["token" := r.credentials.token,
                                  "id_token" := r.credentials.idToken,
                                  "expires" := r.credentials.expires,
                                  "expires_at" := r.credentials.expiresAt]),
        "extra" := Hash(map["org_id" := r.extra.orgId,
                            "patient_id" := r.extra.patientId,
                            "practitioner_id" := r.extra.practitionerId,
                            "fhir_user_uri" := r.extra.fhirUserUri,
                            "fhir_uri" := r.extra.fhirUri,
                            "style_url" := r.extra.styleUrl,
                            "scope_granted" := r.extra.scopeGranted,
                            "refresh_token" := r.extra.refreshToken,
                            "ehr_domain" := r.extra.ehrDomain])]
  }

  /**
   * Looking up the session's issuer. It is a String (or `nil`) when `launching` wrote it;
   * any other value equals no client's issuer.
   */
  function FindSessionIssuer(backend: Backend, issuer: Value, params: Value): (r: Result<Option<Client>, Error>)
    ensures issuer.Str? ==> r == FindByIssuer(backend, Some(issuer.s), params)
    ensures issuer.Nil? ==> r == FindByIssuer(backend, None, params)
  {
    match issuer
    case Str(s) => FindByIssuer(backend, Some(s), params)
    case Nil => FindByIssuer(backend, None, params)
    case _ => if backend.AbstractBackend? then FindByIssuer(backend, None, params) else Success(None)
  }

  /**
   * The callback after a passing state check, over the session already marked launched:
   * the issuer comes from the session, never from the request.
   */
  function Redeem(opts: Options, session: Store, params: Params, redirectUri: string,
                  post: Authorization.TokenRequest -> Option<Authorization.Response>, decode: Decoder): (r: Result<AuthResult, Failure>)
    ensures !Truthy(Session.Issuer(session)) ==> r == Failure(NoSmartClient)
    ensures Truthy(Session.Issuer(session)) && opts.backend.None? ==> r == Failure(Raised(NoMethodError))
    ensures Truthy(Session.Issuer(session)) && opts.backend.Some? ==>
      var found := FindSessionIssuer(opts.backend.value, Session.Issuer(session), Get(session, SetupParamsKey));
      && (found.Failure? ==> r == Failure(Raised(found.error)))
      && (found == Success(None) ==> r == Failure(NoBackendConfigured(Session.Issuer(session))))
      && (found.Success? && found.value.Some? && Truthy(Get(session, CodeVerifierKey)) ==> r == Failure(Raised(ArgumentError)))
      && (found.Success? && found.value.Some? && !Truthy(Get(session, CodeVerifierKey)) ==>
            var exchanged := Authorization.ExchangeCodeForToken(Session.TokenUrl(session), found.value.value,
                                                                Param?(params, "code"), redirectUri, post);
            && (exchanged.Failure? ==> r == Failure(Raised(exchanged.error)))
            && (exchanged.Success? ==> r == Assemble(exchanged.value, found.value.value, decode)))
  {
    var issuer := Session.Issuer(session);
    if !Truthy(issuer) then Failure(NoSmartClient)
    else if opts.backend.None? then Failure(Raised(NoMethodError))
    else
      match FindSessionIssuer(opts.backend.value, issuer, Get(session, SetupParamsKey))
      case Failure(e) => Failure(Raised(e))
      case Success(None) => Failure(NoBackendConfigured(issuer))
      case Success(Some(client)) =>
        // With a stored verifier the source passes four arguments to a three-argument method.
        if Truthy(Get(session, CodeVerifierKey)) then Failure(Raised(ArgumentError))
        else
          match Authorization.ExchangeCodeForToken(Session.TokenUrl(session), client, Param?(params, "code"), redirectUri, post)
          case Failure(e) => Failure(Raised(e))
          case Success(response) => Assemble(response, client, decode)
  }

  /** `request.params["state"]`. */
  function StateParam(params: Params): Value {
    FromOption(Param?(params, "state"))
  }

  /**
   * `callback_phase`: an upstream `error` parameter fails first, then the state check;
   * both leave the session untouched and contact nothing. A passing state check marks the
   * launch launched before anything else happens.
   */
  function CallbackPhase(opts: Options, session: Store, params: Params, redirectUri: string,
                         post: Authorization.TokenRequest -> Option<Authorization.Response>, decode: Decoder): (r: Outcome<AuthResult>)
    ensures "error" in params ==> r == Outcome(session, Failure(CallbackError(Param?(params, "error_description"))))
    ensures "error" !in params && !IsLaunching(session, StateParam(params)).Ok? ==>
      r == Outcome(session, Failure(StateIncorrect(IsLaunching(session, StateParam(params)))))
    ensures "error" !in params && IsLaunching(session, StateParam(params)).Ok? ==>
      && r.session == Launched(session)
      && r.result == Redeem(opts, Launched(session), params, redirectUri, post, decode)
  {
    if "error" in params then Outcome(session, Failure(CallbackError(Param?(params, "error_description"))))
    else
      var (next, check) := StateIsCorrect(session, StateParam(params));
      if !check.Ok? then Outcome(next, Failure(StateIncorrect(check)))
      else Outcome(next, Redeem(opts, next, params, redirectUri, post, decode))
  }

  // ---------------------------------------------------------------------------------------
  // Properties of the request phase

  /** The request phase for a found client that answers `use_pkce`, as a call of `smart_url_for`. */
  lemma RequestPhaseCallsSmartUrlFor(opts: Options, session: Store, params: Params, redirectUri: string,
                                     fetch: Conformance.Fetch, sha256: string -> seq<Pkce.Byte>,
                                     stateId: string, random: seq<Pkce.Byte>, client: Client)
    requires opts.backend.Some? && "iss" in params
    requires FindByIssuer(opts.backend.value, Some(params["iss"]), OtherParams(params)) == Success(Some(client))
    requires client.usePkce.Some?
    ensures var withParams := session[SetupParamsKey := OtherParams(params)];
      var verifier := Pkce.CodeVerifier(random);
      RequestPhase(opts, session, params, redirectUri, fetch, sha256, stateId, random)
        == if client.usePkce == Some(true)
           then SmartUrlFor(opts, withParams[CodeVerifierKey := Str(verifier)], params, redirectUri, client,
                            Some(Pkce.CodeChallenge(sha256(verifier))), fetch, stateId)
           else SmartUrlFor(opts, withParams, params, redirectUri, client, None, fetch, stateId)
  {
  }

  /**
   * A launch for a known client that answers `use_pkce` records the launch in the
   * session: state id, status, issuer, token endpoint, requested scope and setup params,
   * and the verifier exactly when the client uses PKCE.
   */
  lemma RequestPhaseRecordsLaunch(opts: Options, session: Store, params: Params, redirectUri: string,
                                  fetch: Conformance.Fetch, sha256: string -> seq<Pkce.Byte>,
                                  stateId: string, random: seq<Pkce.Byte>, client: Client)
    requires opts.backend.Some? && "iss" in params
    requires FindByIssuer(opts.backend.value, Some(params["iss"]), OtherParams(params)) == Success(Some(client))
    requires client.usePkce.Some?
    requires Conformance.FromServer(client.issuer, fetch).Success?
    ensures var r := RequestPhase(opts, session, params, redirectUri, fetch, sha256, stateId, random);
      var info := Conformance.FromServer(client.issuer, fetch).value;
      && Session.StateId(r.session) == Str(stateId)
      && Session.Status(r.session) == Str(StatusLaunching)
      && Session.Issuer(r.session) == FromOption(client.issuer)
      && Session.TokenUrl(r.session) == info.tokenUrl
      && Session.ScopeRequested(r.session) == Str(RequestedScope(client, opts.defaultScope))
      && Get(r.session, SetupParamsKey) == OtherParams(params)
      && (client.usePkce == Some(true) ==> Get(r.session, CodeVerifierKey) == Str(Pkce.CodeVerifier(random)))
      && (client.usePkce == Some(false) ==> Get(r.session, CodeVerifierKey) == Get(session, CodeVerifierKey))
  {
    RequestPhaseCallsSmartUrlFor(opts, session, params, redirectUri, fetch, sha256, stateId, random, client);
    var withParams := session[SetupParamsKey := OtherParams(params)];
    var info := Conformance.FromServer(client.issuer, fetch).value;
    var scope := RequestedScope(client, opts.defaultScope);
    if client.usePkce == Some(true) {
      LaunchRecords(withParams[CodeVerifierKey := Str(Pkce.CodeVerifier(random))], client, info, scope, stateId);
    } else {
      LaunchRecords(withParams, client, info, scope, stateId);
    }
  }

  /** What `launching` leaves in a session: the six launch entries, and the strategy's own two keys as they were. */
  lemma LaunchRecords(s: Store, client: Client, info: Conformance.Info, scope: string, stateId: string)
    ensures var s' := Launching(s, client, info, scope, stateId);
      && Session.StateId(s') == Str(stateId)
      && Session.Status(s') == Str(StatusLaunching)
      && Session.Issuer(s') == FromOption(client.issuer)
      && Session.TokenUrl(s') == info.tokenUrl
      && Session.ScopeRequested(s') == Str(scope)
      && Get(s', SetupParamsKey) == Get(s, SetupParamsKey)
      && Get(s', CodeVerifierKey) == Get(s, CodeVerifierKey)
  {
    LaunchingKeeps(s, client, info, scope, stateId, SetupParamsKey);
    LaunchingKeeps(s, client, info, scope, stateId, CodeVerifierKey);
  }

  /** `launching` leaves every key of the strategy's own alone. */
  lemma LaunchingKeeps(s: Store, client: Client, info: Conformance.Info, scope: string, stateId: string, key: string)
    requires key == SetupParamsKey || key == CodeVerifierKey
    ensures Get(Launching(s, client, info, scope, stateId), key) == Get(s, key)
  {
    assert key !in LaunchKeys;
  }

  /**
   * The redirect of a launch for a known client: it goes to the authorize endpoint when
   * that is a String, with the parameters in the source's order, the state id the session
   * now holds, and the PKCE challenge of the stored verifier exactly when the client uses PKCE.
   */
  lemma RequestPhaseRedirect(opts: Options, session: Store, params: Params, redirectUri: string,
                             fetch: Conformance.Fetch, sha256: string -> seq<Pkce.Byte>,
                             stateId: string, random: seq<Pkce.Byte>, client: Client)
    requires opts.backend.Some? && "iss" in params
    requires FindByIssuer(opts.backend.value, Some(params["iss"]), OtherParams(params)) == Success(Some(client))
    requires client.usePkce.Some?
    requires Conformance.FromServer(client.issuer, fetch).Success?
    ensures var r := RequestPhase(opts, session, params, redirectUri, fetch, sha256, stateId, random);
      var info := Conformance.FromServer(client.issuer, fetch).value;
      && (r.result.Success? <==> info.authorizeUrl.Str?)
      && (r.result.Success? ==>
            var q := r.result.value.query;
            && r.result.value.authorizeUrl == info.authorizeUrl.s
            && |q| == (if client.usePkce == Some(true) then 9 else 7)
            && q[0] == Param("response_type", Some("code"))
            && q[1] == Param("client_id", client.clientId)
            && q[2] == Param("scope", Some(RequestedScope(client, opts.defaultScope)))
            && q[3] == Param("redirect_uri", Some(redirectUri))
            && q[4] == Param("aud", client.issuer)
            && q[5] == Param("launch", Some(LaunchContextId(params)))
            && q[6] == Param("state", Some(stateId))
            && Str(stateId) == Session.StateId(r.session)
            && (client.usePkce == Some(true) ==>
                  && q[7] == Param("code_challenge", Some(Pkce.CodeChallenge(sha256(Pkce.CodeVerifier(random)))))
                  && q[8] == Param("code_challenge_method", Some("S256"))))
  {
    RequestPhaseCallsSmartUrlFor(opts, session, params, redirectUri, fetch, sha256, stateId, random, client);
    var info := Conformance.FromServer(client.issuer, fetch).value;
    var scope := RequestedScope(client, opts.defaultScope);
    var withParams := session[SetupParamsKey := OtherParams(params)];
    if client.usePkce == Some(true) {
      var verifier := Pkce.CodeVerifier(random);
      var challenge := Some(Pkce.CodeChallenge(sha256(verifier)));
      SmartUrlForLayout(opts, withParams[CodeVerifierKey := Str(verifier)], params, redirectUri, client, challenge, fetch, stateId);
    } else {
      SmartUrlForLayout(opts, withParams, params, redirectUri, client, None, fetch, stateId);
    }
  }

  /** The redirect `smart_url_for` builds, parameter by parameter. */
  lemma SmartUrlForLayout(opts: Options, session: Store, params: Params, redirectUri: string, client: Client,
                          challenge: Option<string>, fetch: Conformance.Fetch, stateId: string)
    requires Conformance.FromServer(client.issuer, fetch).Success?
    ensures var r := SmartUrlFor(opts, session, params, redirectUri, client, challenge, fetch, stateId);
      var info := Conformance.FromServer(client.issuer, fetch).value;
      && Session.StateId(r.session) == Str(stateId)
      && (r.result.Success? <==> info.authorizeUrl.Str?)
      && (r.result.Success? ==>
            var q := r.result.value.query;
            && r.result.value.authorizeUrl == info.authorizeUrl.s
            && |q| == (if challenge.Some? then 9 else 7)
            && q[0] == Param("response_type", Some("code"))
            && q[1] == Param("client_id", client.clientId)
            && q[2] == Param("scope", Some(RequestedScope(client, opts.defaultScope)))
            && q[3] == Param("redirect_uri", Some(redirectUri))
            && q[4] == Param("aud", client.issuer)
            && q[5] == Param("launch", Some(LaunchContextId(params)))
            && q[6] == Param("state", Some(stateId))
            && (challenge.Some? ==>
                  && q[7] == Param("code_challenge", Some(challenge.value))
                  && q[8] == Param("code_challenge_method", Some("S256"))))
  {
    var scope := RequestedScope(client, opts.defaultScope);
    AuthorizeParamsLayout(client, scope, redirectUri, LaunchContextId(params), stateId, challenge);
  }

  /** The authorize parameters, one by one. */
  lemma AuthorizeParamsLayout(client: Client, scope: string, redirectUri: string, launch: string,
                              stateId: string, challenge: Option<string>)
    ensures var q := AuthorizeParams(client, scope, redirectUri, launch, stateId, challenge);
      && |q| == (if challenge.Some? then 9 else 7)
      && q[0] == Param("response_type", Some("code"))
      && q[1] == Param("client_id", client.clientId)
      && q[2] == Param("scope", Some(scope))
      && q[3] == Param("redirect_uri", Some(redirectUri))
      && q[4] == Param("aud", client.issuer)
      && q[5] == Param("launch", Some(launch))
      && q[6] == Param("state", Some(stateId))
      && (challenge.Some? ==>
            && q[7] == Param("code_challenge", Some(challenge.value))
            && q[8] == Param("code_challenge_method", Some("S256")))
  {
  }

  /**
   * Both shipped client classes lack `use_pkce`, so a launch for a client they build
   * raises NoMethodError once the issuer is found, after the setup params are stored.
   */
  lemma ShippedClientsCannotLaunch(opts: Options, session: Store, params: Params, redirectUri: string,
                                   fetch: Conformance.Fetch, sha256: string -> seq<Pkce.Byte>,
                                   stateId: string, random: seq<Pkce.Byte>, args: Args, client: Client)
    requires client == Clients.New(args) || client == Clients.NewOmniauthSmartClient(args)
    requires opts.backend.Some? && "iss" in params
    requires FindByIssuer(opts.backend.value, Some(params["iss"]), OtherParams(params)) == Success(Some(client))
    ensures RequestPhase(opts, session, params, redirectUri, fetch, sha256, stateId, random)
            == Outcome(session[SetupParamsKey := OtherParams(params)], Failure(Raised(NoMethodError)))
  {
  }

  /**
   * An issuer that is missing or not registered fails the same way whatever the network,
   * the random source or the digest would have answered, and leaves the session as it was.
   */
  lemma UnknownIssuerTouchesNothing(opts: Options, session: Store, params: Params, redirectUri: string,
                                    fetch1: Conformance.Fetch, fetch2: Conformance.Fetch,
                                    sha1: string -> seq<Pkce.Byte>, sha2: string -> seq<Pkce.Byte>,
                                    state1: string, state2: string, random1: seq<Pkce.Byte>, random2: seq<Pkce.Byte>)
    requires opts.backend.Some?
    requires "iss" !in params || FindByIssuer(opts.backend.value, Some(params["iss"]), OtherParams(params)) == Success(None)
    ensures var r := RequestPhase(opts, session, params, redirectUri, fetch1, sha1, state1, random1);
      && r == RequestPhase(opts, session, params, redirectUri, fetch2, sha2, state2, random2)
      && r.session == session
      && r.result == Failure(if "iss" in params then UnknownIssuer else NoIssuer)
  {
  }

  // ---------------------------------------------------------------------------------------
  // Properties of the callback phase

  /**
   * A callback that passes the state check consumes the launch: the same state presented
   * again, with any other parameters and oracles, fails with status "launched".
   */
  lemma CallbackRefusesReplay(opts: Options, session: Store, params: Params, redirectUri: string,
                              post: Authorization.TokenRequest -> Option<Authorization.Response>, decode: Decoder,
                              opts2: Options, params2: Params, redirectUri2: string,
                              post2: Authorization.TokenRequest -> Option<Authorization.Response>, decode2: Decoder)
    requires "error" !in params && IsLaunching(session, StateParam(params)).Ok?
    requires "error" !in params2 && StateParam(params2) == StateParam(params)
    ensures var after := CallbackPhase(opts, session, params, redirectUri, post, decode).session;
      CallbackPhase(opts2, after, params2, redirectUri2, post2, decode2)
        == Outcome(after, Failure(StateIncorrect(InvalidStatus(Str(StatusLaunched)))))
  {
    var after := Launched(session);
    assert StateParam(params2) == StateId(after);
    LaunchedRefusesReplay(session, StateParam(params2));
  }

  /**
   * The request's `iss` plays no part in the callback: the client is looked up from the
   * issuer the launch stored in the session.
   */
  lemma CallbackIgnoresRequestIssuer(opts: Options, session: Store, params: Params, iss: string, redirectUri: string,
                                     post: Authorization.TokenRequest -> Option<Authorization.Response>, decode: Decoder)
    ensures CallbackPhase(opts, session, params["iss" := iss], redirectUri, post, decode)
            == CallbackPhase(opts, session, params, redirectUri, post, decode)
  {
    var params' := params["iss" := iss];
    assert Param?(params', "error") == Param?(params, "error");
    assert Param?(params', "error_description") == Param?(params, "error_description");
    assert StateParam(params') == StateParam(params);
    assert Param?(params', "code") == Param?(params, "code");
  }

  /**
   * Until the state check passes, nothing is contacted: the outcome is the same whatever
   * the token endpoint or the decoder would answer, and the session is unchanged.
   */
  lemma RejectedCallbackContactsNothing(opts: Options, session: Store, params: Params, redirectUri: string,
                                        post1: Authorization.TokenRequest -> Option<Authorization.Response>,
                                        post2: Authorization.TokenRequest -> Option<Authorization.Response>,
                                        decode1: Decoder, decode2: Decoder)
    requires "error" in params || !IsLaunching(session, StateParam(params)).Ok?
    ensures var r := CallbackPhase(opts, session, params, redirectUri, post1, decode1);
      && r == CallbackPhase(opts, session, params, redirectUri, post2, decode2)
      && r.session == session
      && r.result.Failure?
      && ("error" in params <==> r.result.error.CallbackError?)
  {
  }

  /**
   * With a PKCE verifier in the session, the callback for a found client raises
   * ArgumentError before the token endpoint is contacted.
   */
  lemma StoredVerifierBlocksExchange(opts: Options, session: Store, params: Params, redirectUri: string,
                                     post1: Authorization.TokenRequest -> Option<Authorization.Response>,
                                     post2: Authorization.TokenRequest -> Option<Authorization.Response>,
                                     decode: Decoder, client: Client)
    requires "error" !in params && IsLaunching(session, StateParam(params)).Ok?
    requires Truthy(Session.Issuer(session)) && opts.backend.Some?
    requires FindSessionIssuer(opts.backend.value, Session.Issuer(session), Get(session, SetupParamsKey)) == Success(Some(client))
    requires Truthy(Get(session, CodeVerifierKey))
    ensures CallbackPhase(opts, session, params, redirectUri, post1, decode).result == Failure(Raised(ArgumentError))
    ensures CallbackPhase(opts, session, params, redirectUri, post1, decode)
            == CallbackPhase(opts, session, params, redirectUri, post2, decode)
  {
    var s' := Launched(session);
    assert Session.Issuer(s') == Session.Issuer(session);
    assert Get(s', SetupParamsKey) == Get(session, SetupParamsKey);
    assert Get(s', CodeVerifierKey) == Get(session, CodeVerifierKey);
  }

  /**
   * The token response handling as written lets a response that reports an error through:
   * here `{"error": "invalid_grant"}` and a decodable identity token yield an auth result,
   * where the intended handling fails with "Could not get token".
   */
  lemma TokenErrorIgnoredAsWritten(client: Client)
    ensures var response := Hash(map["error" := Str("invalid_grant"), "id_token" := Str("t")]);
      var decode: Decoder := (token: Value, aud: Option<string>) => Some(Hash(map["sub" := Str("u")]));
      && AssembleAsWritten(response, client, decode).Success?
      && AssembleAsWritten(response, client, decode).value.uid == Str("u")
      && Assemble(response, client, decode) == Failure(CouldNotGetToken)
  {
    var response := Hash(map["error" := Str("invalid_grant"), "id_token" := Str("t")]);
    var decode: Decoder := (token: Value, aud: Option<string>) => Some(Hash(map["sub" := Str("u")]));
    assert Field(response, "error") == Str("invalid_grant");
    var claims := Hash(map["sub" := Str("u")]);
    assert decode(Field(response, "id_token"), client.clientId) == Some(claims);
    assert Index(claims, "fhirUser") == Success(Nil);
  }

  /** A token response without a truthy `"error"` is assembled the same way as written and as intended. */
  lemma AssembleAgreesWithoutError(response: Value, client: Client, decode: Decoder)
    requires !Indexable(response) || !Truthy(Field(response, "error"))
    ensures Assemble(response, client, decode) == AssembleAsWritten(response, client, decode)
  {
  }
}
