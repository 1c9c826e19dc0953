/**
 * Whole launches: a request phase followed by callbacks over the session it leaves, and
 * the auth hash accessors applied to what a callback produces.
 */
module Scenarios {
  import opened Wrappers
  import opened Values
  import opened Clients
  import opened Backends
  import opened Session
  import opened Strategy
  import Conformance
  import Authorization
  import Pkce
  import AuthHash
  import Segments

  /** The accessors of OmniAuth::Smart::Hash read back what the callback put into the auth hash. */
  lemma AuthHashReadsBack(r: AuthResult)
    ensures var h := AuthHashOf(r);
      && AuthHash.Uid(h) == r.uid
      && AuthHash.Token(h) == Success(r.credentials.token)
      && AuthHash.Expires(h) == Success(r.credentials.expires)
      && AuthHash.ExpiresAt(h) == Success(r.credentials.expiresAt)
      && AuthHash.ScopeGranted(h) == Success(r.extra.scopeGranted)
      && AuthHash.StyleUrl(h) == Success(r.extra.styleUrl)
      && AuthHash.OrgId(h) == Success(r.extra.orgId)
      && AuthHash.PatientId(h) == Success(r.extra.patientId)
      && AuthHash.FhirUri(h) == Success(r.extra.fhirUri)
  {
    var h := AuthHashOf(r);
    AuthHash.WellFormedHashReads(h);
  }

  /**
   * Whatever the oracles answer, a callback that succeeds has consumed the launch and
   * yields an auth hash that reports `expires` as true, the client's issuer as FHIR URI
   * and its org id.
   */
  lemma SuccessfulCallbackAuthHash(opts: Options, session: Store, params: Params, redirectUri: string,
                                   post: Authorization.TokenRequest -> Option<Authorization.Response>, decode: Decoder)
    requires CallbackPhase(opts, session, params, redirectUri, post, decode).result.Success?
    ensures var r := CallbackPhase(opts, session, params, redirectUri, post, decode);
      && "error" !in params
      && IsLaunching(session, StateParam(params)).Ok?
      && Session.Status(r.session) == Str(StatusLaunched)
      && AuthHash.Expires(AuthHashOf(r.result.value)) == Success(Bool(true))
      && r.result.value.extra.fhirUri == Session.Issuer(session)
  {
    var r := CallbackPhase(opts, session, params, redirectUri, post, decode);
    var s' := Launched(session);
    assert r.result == Redeem(opts, s', params, redirectUri, post, decode);
    var found := FindSessionIssuer(opts.backend.value, Session.Issuer(s'), Get(s', SetupParamsKey));
    var client := found.value.value;
    var exchanged := Authorization.ExchangeCodeForToken(Session.TokenUrl(s'), client, Param?(params, "code"), redirectUri, post);
    assert r.result == Assemble(exchanged.value, client, decode);
    assert r.result == BuildResult(exchanged.value, client, decode);
    assert r.result.value.credentials.expires == Bool(true);
    AuthHashReadsBack(r.result.value);
    FoundClientHasSessionIssuer(opts.backend.value, Session.Issuer(s'), Get(s', SetupParamsKey));
    assert Session.Issuer(s') == Session.Issuer(session);
  }

  /** A client found for the session's (truthy) issuer carries exactly that issuer. */
  lemma FoundClientHasSessionIssuer(backend: Backend, issuer: Value, params: Value)
    requires Truthy(issuer)
    requires FindSessionIssuer(backend, issuer, params).Success?
    requires FindSessionIssuer(backend, issuer, params).value.Some?
    ensures issuer.Str?
    ensures FromOption(FindSessionIssuer(backend, issuer, params).value.value.issuer) == issuer
  {
  }

  /** A backend holding one client. */
  function SingleClientOptions(client: Client): Options {
    Options(Some(BackendArray([client])), DefaultScope)
  }

  /** A launch from an empty session for the one registered client. */
  lemma SingleClientLaunch(client: Client, iss: string, redirectUri: string,
                           fetch: Conformance.Fetch, sha256: string -> seq<Pkce.Byte>,
                           stateId: string, random: seq<Pkce.Byte>, authorizeUrl: string, tokenUrl: Value)
    requires client.issuer == Some(iss) && client.usePkce.Some?
    requires Conformance.FromServer(client.issuer, fetch) == Success(Conformance.Info(Str(authorizeUrl), tokenUrl))
    ensures var r := RequestPhase(SingleClientOptions(client), map[], map["iss" := iss], redirectUri, fetch, sha256, stateId, random);
      && r.result.Success?
      && |r.result.value.query| == (if client.usePkce == Some(true) then 9 else 7)
      && r.result.value.query[6] == Param("state", Some(stateId))
      && (client.usePkce == Some(true) ==>
            r.result.value.query[7] == Param("code_challenge", Some(Pkce.CodeChallenge(sha256(Pkce.CodeVerifier(random))))))
      && IsLaunching(r.session, Str(stateId)).Ok?
      && Session.Issuer(r.session) == Str(iss)
      && Session.TokenUrl(r.session) == tokenUrl
      && Get(r.session, CodeVerifierKey) == (if client.usePkce == Some(true) then Str(Pkce.CodeVerifier(random)) else Nil)
  {
    var opts := SingleClientOptions(client);
    var params := map["iss" := iss];
    assert FindByIssuer(opts.backend.value, Some(params["iss"]), OtherParams(params)) == Success(Some(client));
    RequestPhaseRecordsLaunch(opts, map[], params, redirectUri, fetch, sha256, stateId, random, client);
    RequestPhaseRedirect(opts, map[], params, redirectUri, fetch, sha256, stateId, random, client);
  }

  /**
   * A callback presenting the state of a launch recorded for the one registered client:
   * the session becomes launched and the redemption proceeds over it.
   */
  lemma SingleClientCallbackRedeems(client: Client, iss: string, session: Store, params: Params, stateId: string,
                                    redirectUri: string, post: Authorization.TokenRequest -> Option<Authorization.Response>,
                                    decode: Decoder)
    requires client.issuer == Some(iss)
    requires "error" !in params && Param?(params, "state") == Some(stateId)
    requires IsLaunching(session, Str(stateId)).Ok? && Session.Issuer(session) == Str(iss)
    ensures var r := CallbackPhase(SingleClientOptions(client), session, params, redirectUri, post, decode);
      var s' := Launched(session);
      && r.session == s'
      && (Truthy(Get(session, CodeVerifierKey)) ==> r.result == Failure(Raised(ArgumentError)))
      && (!Truthy(Get(session, CodeVerifierKey)) ==>
            var exchanged := Authorization.ExchangeCodeForToken(Session.TokenUrl(session), client,
                                                                Param?(params, "code"), redirectUri, post);
            && (exchanged.Failure? ==> r.result == Failure(Raised(exchanged.error)))
            && (exchanged.Success? ==> r.result == Assemble(exchanged.value, client, decode)))
  {
    var opts := SingleClientOptions(client);
    var s' := Launched(session);
    assert StateParam(params) == Str(stateId);
    assert Session.Issuer(s') == Str(iss);
    assert Get(s', CodeVerifierKey) == Get(session, CodeVerifierKey);
    assert Session.TokenUrl(s') == Session.TokenUrl(session);
    assert FindSessionIssuer(opts.backend.value, Session.Issuer(s'), Get(s', SetupParamsKey)) == Success(Some(client));
  }

  /**
   * The launch-then-callback round trip of a client without PKCE: the redirect carries the
   * state id, presenting it with a code exchanges the code at the conformance statement's
   * token endpoint, and the auth result holds the token response's access token and the
   * identity token's subject.
   */
  lemma LaunchThenCallback(client: Client, iss: string, redirectUri: string, code: string,
                           fetch: Conformance.Fetch, sha256: string -> seq<Pkce.Byte>,
                           stateId: string, random: seq<Pkce.Byte>,
                           authorizeUrl: string, tokenUrl: Value,
                           post: Authorization.TokenRequest -> Option<Authorization.Response>, decode: Decoder,
                           body: map<string, Value>, claims: map<string, Value>)
    requires client.issuer == Some(iss) && client.usePkce == Some(false)
    requires Conformance.FromServer(client.issuer, fetch) == Success(Conformance.Info(Str(authorizeUrl), tokenUrl))
    requires post(Authorization.TokenRequestFor(tokenUrl, client, Some(code), redirectUri))
             == Some(Authorization.Response(200, Some(Hash(body))))
    requires !Truthy(Get(body, "error"))
    requires decode(Get(body, "id_token"), client.clientId) == Some(Hash(claims))
    requires "fhirUser" !in claims
    ensures var opts := SingleClientOptions(client);
      var launch := RequestPhase(opts, map[], map["iss" := iss], redirectUri, fetch, sha256, stateId, random);
      var back := CallbackPhase(opts, launch.session, map["code" := code, "state" := stateId], redirectUri, post, decode);
      && launch.result.Success?
      && Param("state", Some(stateId)) in launch.result.value.query
      && back.result.Success?
      && back.result.value.uid == Get(claims, "sub")
      && back.result.value.credentials.token == Get(body, "access_token")
      && back.result.value.extra.practitionerId == Nil
      && Session.Status(back.session) == Str(StatusLaunched)
  {
    SingleClientLaunch(client, iss, redirectUri, fetch, sha256, stateId, random, authorizeUrl, tokenUrl);
    var launch := RequestPhase(SingleClientOptions(client), map[], map["iss" := iss], redirectUri, fetch, sha256, stateId, random);
    assert launch.result.value.query[6] == Param("state", Some(stateId));
    CallbackCompletes(client, iss, launch.session, code, stateId, tokenUrl, redirectUri, post, decode, body, claims);
  }

  /**
   * The callback half of `LaunchThenCallback`, over any session holding a launch for the
   * registered client without a verifier.
   */
  lemma CallbackCompletes(client: Client, iss: string, session: Store, code: string, stateId: string, tokenUrl: Value,
                          redirectUri: string, post: Authorization.TokenRequest -> Option<Authorization.Response>,
                          decode: Decoder, body: map<string, Value>, claims: map<string, Value>)
    requires client.issuer == Some(iss)
    requires IsLaunching(session, Str(stateId)).Ok? && Session.Issuer(session) == Str(iss)
    requires Session.TokenUrl(session) == tokenUrl && !Truthy(Get(session, CodeVerifierKey))
    requires post(Authorization.TokenRequestFor(tokenUrl, client, Some(code), redirectUri))
             == Some(Authorization.Response(200, Some(Hash(body))))
    requires !Truthy(Get(body, "error"))
    requires decode(Get(body, "id_token"), client.clientId) == Some(Hash(claims))
    requires "fhirUser" !in claims
    ensures var back := CallbackPhase(SingleClientOptions(client), session, map["code" := code, "state" := stateId],
                                      redirectUri, post, decode);
      && back.result.Success?
      && back.result.value.uid == Get(claims, "sub")
      && back.result.value.credentials.token == Get(body, "access_token")
      && back.result.value.extra.practitionerId == Nil
      && Session.Status(back.session) == Str(StatusLaunched)
  {
    var cb := map["code" := code, "state" := stateId];
    assert Param?(cb, "code") == Some(code) && Param?(cb, "state") == Some(stateId);
    SingleClientCallbackRedeems(client, iss, session, cb, stateId, redirectUri, post, decode);
    assert Authorization.ExchangeCodeForToken(tokenUrl, client, Some(code), redirectUri, post) == Success(Hash(body));
    AssembleSucceeds(body, claims, client, decode);
  }

  /** A token response without an error, whose identity token decodes to claims without `fhirUser`, is assembled. */
  lemma AssembleSucceeds(body: map<string, Value>, claims: map<string, Value>, client: Client, decode: Decoder)
    requires !Truthy(Get(body, "error"))
    requires decode(Get(body, "id_token"), client.clientId) == Some(Hash(claims))
    requires "fhirUser" !in claims
    ensures var r := Assemble(Hash(body), client, decode);
      && r.Success?
      && r.value.uid == Get(claims, "sub")
      && r.value.credentials.token == Get(body, "access_token")
      && r.value.extra.practitionerId == Nil
      && (!Truthy(Get(body, "domain")) ==> r.value.extra.ehrDomain == Get(body, "ehr_domain"))
  {
    assert Index(Hash(claims), "fhirUser") == Success(Nil);
  }

  /**
   * An identity token whose `fhirUser` is a practitioner reference `<base>/<id>` gives `<id>`
   * as practitioner id and keeps the reference and the encoded token in the auth result.
   */
  lemma AssembleWithFhirUser(body: map<string, Value>, claims: map<string, Value>, client: Client, decode: Decoder,
                             base: string, id: string)
    requires !Truthy(Get(body, "error"))
    requires decode(Get(body, "id_token"), client.clientId) == Some(Hash(claims))
    requires Get(claims, "fhirUser") == Str(base + "/" + id) && id != "" && Segments.NoSlash(id)
    ensures var r := Assemble(Hash(body), client, decode);
      && r.Success?
      && r.value.uid == Get(claims, "sub")
      && r.value.credentials.token == Get(body, "access_token")
      && r.value.credentials.idToken == Get(body, "id_token")
      && r.value.extra.practitionerId == Str(id)
      && r.value.extra.fhirUserUri == Str(base + "/" + id)
  {
    Segments.ReferenceId(base, id);
    assert Index(Hash(claims), "fhirUser") == Success(Str(base + "/" + id));
  }

  /**
   * A forged state is refused without contacting the token endpoint, and the genuine
   * launch still completes afterwards: a failed state check leaves the session as it was.
   */
  lemma ForgedStateLeavesLaunchIntact(opts: Options, session: Store, forged: string, genuine: string,
                                      params: Params, redirectUri: string,
                                      post: Authorization.TokenRequest -> Option<Authorization.Response>, decode: Decoder)
    requires IsLaunching(session, Str(genuine)).Ok? && forged != genuine
    requires "error" !in params
    ensures var r := CallbackPhase(opts, session, params["state" := forged], redirectUri, post, decode);
      && r == Outcome(session, Failure(StateIncorrect(InvalidStateId)))
      && IsLaunching(r.session, Str(genuine)).Ok?
  {
    assert StateParam(params["state" := forged]) == Str(forged);
  }

  /**
   * A PKCE launch sends a 43-character URL-safe challenge when the digest has SHA-256's
   * 32 bytes.
   */
  lemma PkceLaunchSendsChallenge(client: Client, iss: string, redirectUri: string,
                                 fetch: Conformance.Fetch, sha256: string -> seq<Pkce.Byte>,
                                 stateId: string, random: seq<Pkce.Byte>, authorizeUrl: string, tokenUrl: Value)
    requires client.issuer == Some(iss) && client.usePkce == Some(true)
    requires Conformance.FromServer(client.issuer, fetch) == Success(Conformance.Info(Str(authorizeUrl), tokenUrl))
    requires |sha256(Pkce.CodeVerifier(random))| == 32
    ensures var r := RequestPhase(SingleClientOptions(client), map[], map["iss" := iss], redirectUri, fetch, sha256, stateId, random);
      && r.result.Success?
      && |r.result.value.query| == 9
      && r.result.value.query[7].name == "code_challenge"
      && r.result.value.query[7].value.Some?
      && |r.result.value.query[7].value.value| == 43
      && (forall i :: 0 <= i < 43 ==> Pkce.IsUrlSafe(r.result.value.query[7].value.value[i]))
  {
    SingleClientLaunch(client, iss, redirectUri, fetch, sha256, stateId, random, authorizeUrl, tokenUrl);
    Pkce.ChallengeShape(sha256(Pkce.CodeVerifier(random)));
  }

  /**
   * The callback for a PKCE launch raises ArgumentError, because the exchange is called
   * with the verifier as a fourth argument it does not take; the launch is consumed all
   * the same.
   */
  lemma PkceLaunchCannotComplete(client: Client, iss: string, redirectUri: string, code: string,
                                 fetch: Conformance.Fetch, sha256: string -> seq<Pkce.Byte>,
                                 stateId: string, random: seq<Pkce.Byte>,
                                 authorizeUrl: string, tokenUrl: Value,
                                 post: Authorization.TokenRequest -> Option<Authorization.Response>, decode: Decoder)
    requires client.issuer == Some(iss) && client.usePkce == Some(true)
    requires Conformance.FromServer(client.issuer, fetch) == Success(Conformance.Info(Str(authorizeUrl), tokenUrl))
    ensures var opts := SingleClientOptions(client);
      var launch := RequestPhase(opts, map[], map["iss" := iss], redirectUri, fetch, sha256, stateId, random);
      var back := CallbackPhase(opts, launch.session, map["code" := code, "state" := stateId], redirectUri, post, decode);
      back == Outcome(Launched(launch.session), Failure(Raised(ArgumentError)))
  {
    SingleClientLaunch(client, iss, redirectUri, fetch, sha256, stateId, random, authorizeUrl, tokenUrl);
    var launch := RequestPhase(SingleClientOptions(client), map[], map["iss" := iss], redirectUri, fetch, sha256, stateId, random);
    VerifierCallbackRaises(client, iss, launch.session, code, stateId, redirectUri, post, decode);
  }

  /** A callback over a launch for the registered client that stored a verifier raises ArgumentError. */
  lemma VerifierCallbackRaises(client: Client, iss: string, session: Store, code: string, stateId: string,
                               redirectUri: string, post: Authorization.TokenRequest -> Option<Authorization.Response>,
                               decode: Decoder)
    requires client.issuer == Some(iss)
    requires IsLaunching(session, Str(stateId)).Ok? && Session.Issuer(session) == Str(iss)
    requires Truthy(Get(session, CodeVerifierKey))
    ensures CallbackPhase(SingleClientOptions(client), session, map["code" := code, "state" := stateId], redirectUri, post, decode)
         == Outcome(Launched(session), Failure(Raised(ArgumentError)))
  {
    var cb := map["code" := code, "state" := stateId];
    assert Param?(cb, "state") == Some(stateId);
    SingleClientCallbackRedeems(client, iss, session, cb, stateId, redirectUri, post, decode);
  }
}
