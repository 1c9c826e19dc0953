# omniauth-smart, modelled in Dafny

A model of the OmniAuth SMART-on-FHIR launcher (`OmniAuth::Strategies::Smart` and
its helper classes), plus proofs about that model. An EHR launches the application with
an issuer (`iss`) and a launch context. The strategy then:

1. looks the issuer up in a backend of registered clients;
2. reads the server's conformance statement to find its `authorize` and `token`
   endpoints;
3. records the launch in the Rack session under a fresh `state` id;
4. redirects the browser to the authorize endpoint.

On the callback it checks the upstream error and the `state` (the CSRF and replay
protection of section 10.12 of RFC 6749) and marks the launch as used. It then looks the
client up again from the session, exchanges the code at the token endpoint (the
authorization-code grant of section 4.1.3 of RFC 6749, with client authentication as in
section 2.3.1), decodes the identity token and fills the `uid`, `credentials` and
`extra` sections of the auth hash.

Modules, one per component:

- `Values`: Ruby values (nil, booleans, integers, strings, arrays, string-keyed hashes)
  and the Ruby operations the code relies on: `[]`, `has_key?`, `||`, truthiness.
- `Conformance`: `conformance.rb`. It walks the already-decoded statement in both of
  its shapes.
- `Clients` and `Backends`: the two client classes and the two backend families.
- `Session`: `OmniauthSmartSession`, a state machine over the session map.
- `Authorization`: the two token-exchange classes, with the request as a record.
- `Pkce`: `urlsafe_base64` verifiers and the S256 challenge transform (section 4.2 of
  RFC 7636). It includes a base64url decoder that proves the encoding injective.
- `Segments`: Ruby's `String#split('/')`, used for `practitioner_id`.
- `Strategy`: the request and callback phases.
- `AuthHash`: `OmniAuth::Smart::Hash`.
- `Scenarios`: complete launches.

Everything outside the process is a parameter:

- `fetch`: the decoded conformance statement at a URL, or whether the request or the decoding failed;
- `post`: the token endpoint's response;
- `decode`: the identity token's claims;
- `sha256`: a digest;
- `stateId` and `random`: the values `SecureRandom` would draw.

A lemma that says nothing about an oracle holds for every answer it might give.

Ruby's exceptions are `Values.Error` results. The strategy's `fail!` calls are the
`Strategy.Failure` constructors. Several paths in the code fail in ways its authors
evidently did not plan. The model follows the code there, and each such path ends in the
failure the code produces:

- The unknown-extension message in `conformance.rb:42` interpolates an undefined
  `result`, so that branch raises NameError.
- Neither client class defines `use_pkce`, which `smart.rb:62` calls. A launch for a
  client built by either class raises NoMethodError (`ShippedClientsCannotLaunch`). The
  `Client` record carries `usePkce` as an option, so that application-supplied client
  objects that answer it can be modelled too.
- `smart.rb:101` calls the three-parameter `exchange_code_for_token` with a fourth
  argument. Any callback with a stored verifier therefore raises ArgumentError, and the
  verifier is never sent (`StoredVerifierBlocksExchange`, `PkceLaunchCannotComplete`).
- `SmartAuthorization` calls an undefined `fail!` on a non-2xx status: NoMethodError.
- The strategy requires `OmniAuth::Smart::Session`, which is not part of this model. The
  model assumes it behaves as `OmniauthSmartSession` does, with the same keys, and uses
  that class's model in its place.

## Model

| member | source | states |
|---|---|---|
| Values.Index | lib/omniauth/smart/conformance.rb:74-76 | `x["k"]` answers exactly on hashes and strings. A hash gives the entry or nil. A string gives the key if it occurs in it, else nil. nil and booleans raise NoMethodError; integers and arrays raise TypeError. |
| Values.At0 | lib/omniauth/smart/conformance.rb:76 | `x[0]` fails only on nil and booleans. An array gives its first element (nil when empty); a hash gives nil. |
| Values.HasKey | lib/omniauth/smart/hash.rb:55 | `has_key?` answers only on hashes, true exactly when the key is present; anything else raises NoMethodError. |
| Values.Or | lib/omniauth/strategies/smart.rb:135 | `a \|\| b` is `a` when it is truthy and `b` otherwise. |
| Values.Get | lib/omniauth/smart/omniauth-smart-session.rb:14-16 | Reading a string-keyed hash: the entry when present, nil when absent. |
| Conformance.MetadataUri | lib/omniauth/smart/conformance.rb:64-66 | The metadata location is exactly the service URI followed by `/metadata`; a nil service URI raises NoMethodError. |
| Conformance.FromServer | lib/omniauth/smart/conformance.rb:15-31 | Fetches `<issuer>/metadata` and parses what it answers. A nil issuer fails with NoMethodError, a failed request with TransportError and a body that is not JSON with ParseError, all before parsing. |
| Conformance.Parse | lib/omniauth/smart/conformance.rb:20-24 | A document that is not a hash fails with ConformanceError naming its class, before any parsing. For a hash, the verdict is that of the extension the shape selects, and a failure to reach that extension is the statement's failure. A successful parse has both URLs truthy. |
| Conformance.IsKnownSecurityExtension | lib/omniauth/smart/conformance.rb:68-70 | A hash extension is known iff its `url` is the SMART oauth-uris URL. A string is never known. Other values raise. |
| Conformance.Entries | lib/omniauth/smart/conformance.rb:44 | `each` over the inner extensions visits an array's items in order. An empty hash visits nothing. |
| Conformance.ParseExtension | lib/omniauth/smart/conformance.rb:41-61 | An extension whose `url` is not oauth-uris fails (NameError, from the undefined `result`). A success carries both URLs, neither nil nor false. |
| Conformance.LastTaggedOrCons | lib/omniauth/smart/conformance.rb:44-50 | Visiting one entry first and then the rest is the same as starting the rest from that entry's value when it is tagged. This is the step from the reference definition to the loop. |
| Conformance.ScanIsLastTagged | lib/omniauth/smart/conformance.rb:44-50 | The loop succeeds iff every entry answers `[]`. It then yields the `valueUri` of the LAST entry tagged `authorize`, and likewise for `token`. Other tags such as `manage` are ignored. |
| Conformance.ParseExtensionIsDeclares | lib/omniauth/smart/conformance.rb:41-61 | Parsing an extension succeeds with given URLs iff the extension declares them: known url, an array of indexable entries, last-tagged URLs that are both truthy. |
| Conformance.MissingEndpointErrors | lib/omniauth/smart/conformance.rb:58-59 | A missing authorize URI fails with "No authorization uri" whatever the token URI is. Only with it present does a missing token URI fail with "No token uri". |
| Conformance.ShapesAgree | lib/omniauth/smart/conformance.rb:72-78 | The nested `Conformance.rest.security.extension` shape and the `rest[0].security.extension[0]` array shape, carrying the same extension, parse to the same result. |
| Conformance.ArrayShapeSelects | lib/omniauth/smart/conformance.rb:72-76 | Without a `Conformance` key, whenever `rest` is an array whose first item is a hash with a hash `security` holding a non-empty `extension` array, the first item of that array is the extension parsed, whatever else the document holds. |
| Conformance.NestedShapeSelects | lib/omniauth/smart/conformance.rb:72-74 | With a `Conformance` key holding hashes along `rest.security`, `security.extension` itself is the extension parsed, whatever else the document holds. |
| Conformance.OAuthUrisDeclares | spec/omniauth/smart/smart_conformance_spec.rb:21-33 | An OAuth-URIs extension listing `token`, `authorize` and `manage` entries declares exactly the authorize and token URIs it lists. |
| Conformance.ServerStatementParses | spec/omniauth/smart/smart_conformance_spec.rb:5-46 | A statement of the published array shape, whose `security` also carries a `service` list, parses to its authorize and token URIs; the `manage` entry is ignored. |
| Conformance.ConformanceKeyDecidesShape | lib/omniauth/smart/conformance.rb:73-74 | With a top-level `Conformance` key, the top-level `rest` is never consulted. A nil `Conformance` raises NoMethodError. |
| Clients.New | lib/omniauth/smart/client.rb:12-19 | The constructor stores each keyword unchanged, with omitted ones nil. The class does not answer `use_pkce`. |
| Clients.NewOmniauthSmartClient | lib/omniauth/smart/omniauth-smart-client.rb:11-17 | The same for the older class, which has no `open_id_configuration_url` and ignores that keyword. |
| Clients.ClassificationBySecret | lib/omniauth/smart/client.rb:21-27 | A client is public iff its secret is nil; an empty-string secret is confidential. Confidential is exactly not public. A client built without a secret is public. |
| Backends.FirstIndex | lib/omniauth/smart/backend.rb:24 | The position found has the queried issuer, and no earlier client has it. None exactly when no client has it. |
| Backends.Find | lib/omniauth/smart/backend.rb:23-25 | A found client has the queried issuer. None iff no client in the array has it. Otherwise it is the first match in array order. |
| Backends.FindByIssuer | lib/omniauth/smart/backend.rb:11-25 | The abstract backend always raises AbstractMethodError with its message. The array backend answers `Find`. |
| Backends.ParamsIgnored | lib/omniauth/smart/backend.rb:23-24 | The `params:` argument never changes the answer. |
| Backends.FindByIssuerOnly | lib/omniauth/smart/omniauth-smart-backend.rb:10-23 | The older backend family: the abstract one always raises AbstractMethodError; the array one answers the first match. |
| Backends.FirstRegistrationWins | lib/omniauth/smart/omniauth-smart-backend.rb:22 | With duplicate issuers, the client at the first matching position is returned. |
| Session.Launching | lib/omniauth/smart/omniauth-smart-session.rb:70-77 | After `launching`, the six keys hold the new state id, "launching", both conformance URLs, the client's issuer and the requested scope. No other key changes. |
| Session.IsLaunching | lib/omniauth/smart/omniauth-smart-session.rb:81-92 | Succeeds iff the candidate equals the stored state id and the status is "launching". A mismatched id is "Invalid state id" whatever the status. A matching id with another status reports that status. It is a function of the session, so it writes nothing. |
| Session.Launched | lib/omniauth/smart/omniauth-smart-session.rb:94-96 | Sets the status to "launched" and changes no other key. |
| Session.LaunchingAcceptsOnlyItsStateId | lib/omniauth/smart/omniauth-smart-session.rb:70-92 | Right after `launching`, exactly the new state id passes the check. |
| Session.LaunchedRefusesReplay | lib/omniauth/smart/omniauth-smart-session.rb:94-96 | After `launched`, no candidate passes. The stored id is refused with status "launched". |
| Session.RelaunchInvalidatesEarlierState | lib/omniauth/smart/omniauth-smart-session.rb:70-77 | A second `launching` with a different id makes the first id fail as "Invalid state id". |
| Session.EmptySessionNeverLaunching | lib/omniauth/smart/omniauth-smart-session.rb:81-92 | On an empty session nothing passes. nil is refused for its nil status; everything else for its state id. |
| Pkce.Tr | lib/omniauth/strategies/smart.rb:177 | `tr('+/', '-_')` turns every `+` into `-` and every `/` into `_`, keeps every other character and the length, and leaves no `+` or `/`. |
| Pkce.StripPaddingAfterUrl | lib/omniauth/strategies/smart.rb:177 | `gsub(/=+$/, '')` on a base64url text with padding gives the text without its padding. |
| Pkce.DeletePaddingAfterUrl | lib/omniauth/strategies/smart.rb:171 | `urlsafe_base64`'s padding removal gives the unpadded text, so the later strip changes nothing. |
| Pkce.ChallengeIsUnpaddedBase64Url | lib/omniauth/strategies/smart.rb:175-178 | The challenge, and likewise the verifier, is the unpadded base64url encoding of its bytes (section 5 of RFC 4648). |
| Pkce.ChallengeShape | lib/omniauth/strategies/smart.rb:169-178 | The challenge of n bytes has (4n+2)/3 characters, all URL-safe. A 32-byte digest or random source gives 43 characters, the minimum section 4.1 of RFC 7636 asks of a verifier. |
| Pkce.DecodeEncode | lib/omniauth/strategies/smart.rb:177 | Decoding the unpadded base64url text gives back the bytes. |
| Pkce.ChallengeDecodesToDigest | lib/omniauth/strategies/smart.rb:175-178 | The challenge transform is injective: equal challenges mean equal digests, and the digest decodes back from its challenge. |
| Authorization.TokenRequestFor | lib/omniauth/smart/authorization.rb:14-36 | The POST goes to the token URL, form-encoded, accepting JSON. The form starts with `code`, `grant_type=authorization_code` and `redirect_uri` in that order. `client_id` is appended iff the client is public; Basic credentials are set iff it is confidential. No `code_verifier` is ever sent. |
| Authorization.ExactlyOneClientAuthentication | lib/omniauth/smart/authorization.rb:20-27 | Exactly one of form `client_id` and Basic authentication is used. |
| Authorization.ExchangeCodeForToken | lib/omniauth/smart/authorization.rb:33-38 | The decoded body is returned unchanged, whatever the status and whether or not it reports an error. Transport and decoding failures are errors. |
| Authorization.SmartExchangeCodeForToken | lib/omniauth/smart/smart-authorization.rb:31-40 | A non-2xx status fails (NoMethodError, as the class has no `fail!`) and its body is not returned. On a 2xx status the decoded body is returned unchanged. |
| Segments.LastSegmentCharacterization | lib/omniauth/strategies/smart.rb:130 | `split('/').last` is nil iff the text is only slashes. Otherwise it is `Some(t)` exactly for the `t` that is a non-empty slash-free field followed only by slashes (an independent reference definition). |
| Segments.ReferenceId | lib/omniauth/strategies/smart.rb:130 | For `<base>/Practitioner/<id>`, with or without a trailing slash, the practitioner id is `<id>`. |
| Strategy.OtherParams | lib/omniauth/strategies/smart.rb:58 | The parameters kept for the backend and the session are all request parameters but `iss` and `launch`, each with its request value. |
| Strategy.RequestedScope | lib/omniauth/strategies/smart.rb:191 | The client's scope when it has one, otherwise the `default_scope` option. |
| Strategy.LaunchContextId | lib/omniauth/strategies/smart.rb:213-215 | The `launch` parameter, or the empty string when absent. |
| Strategy.AuthorizeParams | lib/omniauth/strategies/smart.rb:194-208 | The authorize query names are exactly `response_type, client_id, scope, redirect_uri, aud, launch, state`, in that order, followed by `code_challenge, code_challenge_method` iff a challenge is given. |
| Strategy.SmartUrlFor | lib/omniauth/strategies/smart.rb:189-211 | A conformance failure writes nothing. Otherwise the session records the launch with the chosen scope. The redirect goes to the authorize URL, provided it is a String, with the authorize parameters. |
| Strategy.RequestPhase | lib/omniauth/strategies/smart.rb:50-78 | No backend: "No backend defined". A missing `iss`: "Unknown issuer…". An unregistered one: "Unknown issuer.". All three leave the session as it was. A found client without `use_pkce` raises NoMethodError after the setup params are stored. |
| Strategy.RequestPhaseCallsSmartUrlFor | lib/omniauth/strategies/smart.rb:60-72 | For a found client, the phase is `smart_url_for`. With PKCE it receives the challenge of the freshly drawn verifier, and the verifier is stored first. |
| Strategy.RequestPhaseRecordsLaunch | lib/omniauth/strategies/smart.rb:58-72 | A launch stores the state id, status "launching", the client's issuer, the token URL, the scope and the setup params. It stores the verifier iff the client uses PKCE, and otherwise leaves the verifier key as it was. |
| Strategy.LaunchingKeeps | lib/omniauth/smart/omniauth-smart-session.rb:70-77 | `launching` leaves the setup-params and verifier keys as they were, so the values the request phase stores there survive it. |
| Strategy.LaunchRecords | lib/omniauth/smart/omniauth-smart-session.rb:70-77 | After `launching`, the session holds the state id, status "launching", the client's issuer, the token URL and the scope, and the setup-params and verifier keys as they were. |
| Strategy.RequestPhaseRedirect | lib/omniauth/strategies/smart.rb:189-208 | The redirect lists `response_type=code`, the client id, the scope, the callback URI, `aud` = the issuer, the launch id and `state`, in that order. `state` is the id the session now holds. `code_challenge` (the S256 challenge of the stored verifier) and `code_challenge_method=S256` follow iff the client uses PKCE. |
| Strategy.SmartUrlForLayout | lib/omniauth/strategies/smart.rb:189-211 | After a successful conformance read the session holds the new state id. The redirect exists iff the authorize URL is a String; it then goes there, with the client's id, the chosen scope, the callback URI, the issuer, the launch id and the state id in that order, and the challenge after them when one is given. |
| Strategy.AuthorizeParamsLayout | lib/omniauth/strategies/smart.rb:194-208 | The authorize query holds, position by position, `response_type=code`, `client_id`, `scope`, `redirect_uri`, `aud` = the client's issuer, `launch` and `state`. With a challenge, `code_challenge` and `code_challenge_method=S256` follow. |
| Strategy.ShippedClientsCannotLaunch | lib/omniauth/strategies/smart.rb:60-62 | For a client built by either library class, a launch that finds it raises NoMethodError at `use_pkce`. |
| Strategy.UnknownIssuerTouchesNothing | lib/omniauth/strategies/smart.rb:53-76 | A missing or unknown issuer fails identically whatever the conformance fetch, the digest or the random source would answer, and leaves the session unchanged. |
| Strategy.StateIsCorrect | lib/omniauth/strategies/smart.rb:235-244 | A passing check marks the launch launched. A failing one leaves the session as it was and reports the session's reason. |
| Strategy.CallbackPhase | lib/omniauth/strategies/smart.rb:80-82 | An upstream `error` parameter fails first, with the description. The state check comes next and, on failure, changes nothing. A passing check marks the session launched before anything else runs. |
| Strategy.RejectedCallbackContactsNothing | lib/omniauth/strategies/smart.rb:226-244 | Until the state check passes, the outcome is the same whatever the token endpoint or decoder would answer. The session is unchanged, and the failure is the callback error iff `error` was given. |
| Strategy.CallbackRefusesReplay | lib/omniauth/strategies/smart.rb:235-239 | After a callback passes the state check, presenting the same state again fails with status "launched", whatever the other parameters and oracles. |
| Strategy.FindSessionIssuer | lib/omniauth/strategies/smart.rb:89 | The callback's lookup uses the issuer stored in the session and the stored setup params. |
| Strategy.Redeem | lib/omniauth/strategies/smart.rb:84-104 | Steps in order: no stored issuer gives "No smart client"; an unknown one gives "No backend configured…"; a stored verifier raises ArgumentError (the four-argument call). Otherwise the code is exchanged at the stored token URL. |
| Strategy.CallbackIgnoresRequestIssuer | lib/omniauth/strategies/smart.rb:84-89 | An `iss` request parameter has no effect on the callback. |
| Strategy.StoredVerifierBlocksExchange | lib/omniauth/strategies/smart.rb:97-101 | With a verifier in the session and the client found, the callback raises ArgumentError, whatever the token endpoint would answer. |
| Strategy.Assemble | lib/omniauth/strategies/smart.rb:106-108 | A token response with a truthy `error` fails with "Could not get token". A success implies no such error (corrected behaviour, see Findings). |
| Strategy.AssembleAsWritten | lib/omniauth/strategies/smart.rb:106-108 | As written, a token response that reports an error still goes on to assembly. |
| Strategy.TokenErrorIgnoredAsWritten | lib/omniauth/strategies/smart.rb:106-108 | `{"error": "invalid_grant", "id_token": …}` produces an auth result as written, but "Could not get token" as intended. |
| Strategy.AssembleAgreesWithoutError | lib/omniauth/strategies/smart.rb:106-110 | Without a truthy `error` the written and the intended handling agree. |
| Strategy.PractitionerId | lib/omniauth/strategies/smart.rb:130 | `fhirUser&.split('/')&.last`: nil stays nil and a string gives its last segment. Any other value raises NoMethodError. |
| Strategy.BuildResult | lib/omniauth/strategies/smart.rb:110-165 | An undecodable identity token fails. Claims that answer no `[]` raise (NoMethodError for nil and booleans, TypeError for integers and arrays). Otherwise the result succeeds iff `fhirUser` is nil or a String, and any other `fhirUser` raises NoMethodError. On success: `uid` is the claims' `sub`; `expires` is true and `expires_at` the claims' `iat`; `practitioner_id` is derived from `fhirUser`; `ehr_domain` is `domain` when truthy, else `ehr_domain`; `fhir_uri` and `org_id` are the client's. The remaining fields are the token response's entries. |
| Strategy.AuthHashOf | lib/omniauth/strategies/smart.rb:137-165 | The auth hash has exactly provider "smart", the uid, an empty info section, credentials and extra. |
| AuthHash.Uid | lib/omniauth/smart/hash.rb:30-32 | `uid` is a plain lookup and never raises. |
| AuthHash.Extra | lib/omniauth/smart/hash.rb:69-72 | Raises KeyError iff the hash has no `extra`, and otherwise returns it. |
| AuthHash.Credentials | lib/omniauth/smart/hash.rb:74-77 | Raises KeyError iff the hash has no `credentials`, and otherwise returns it. |
| AuthHash.ExtraField | lib/omniauth/smart/hash.rb:34-52 | `scope_granted`, `style_url`, `org_id`, `patient_id`, `fhir_uri` read `extra[<name>]`. Their KeyError is the missing extra section's. |
| AuthHash.CredentialsField | lib/omniauth/smart/hash.rb:59-67 | `expires` and `expires_at` read the credentials' entries of that name. |
| AuthHash.Token | lib/omniauth/smart/hash.rb:54-57 | Raises KeyError when the credentials lack `token` (a nil entry counts as present), and otherwise returns it. |
| AuthHash.WellFormedHashReads | lib/omniauth/smart/hash.rb:34-67 | With both sections present as hashes, every derived accessor succeeds with the entry of its name. `token` succeeds iff the key is present. |
| AuthHash.MissingExtraFailsEveryExtraAccessor | lib/omniauth/smart/hash.rb:34-52 | Without `extra`, every extra accessor raises the same KeyError, while `uid` still answers. |
| Scenarios.AuthHashReadsBack | lib/omniauth/strategies/smart.rb:140-165 | `OmniAuth::Smart::Hash` reads back exactly the uid, token, expiry, scope, style URL, org id, patient id and FHIR URI the callback produced. |
| Scenarios.SuccessfulCallbackAuthHash | lib/omniauth/strategies/smart.rb:144-159 | For the library's backends, any successful callback had no `error` parameter and a valid launching state. It leaves the session launched, and its auth hash reports `expires` true and the session's issuer as FHIR URI. |
| Scenarios.FoundClientHasSessionIssuer | lib/omniauth/smart/backend.rb:24 | A client the library's array backend finds for the session's issuer has exactly that issuer. |
| Scenarios.SingleClientLaunch | lib/omniauth/strategies/smart.rb:53-72 | A launch from an empty session for the one registered client succeeds. The redirect's state is the id that then passes the session check. The session holds the issuer and the token URL, and the verifier iff the client uses PKCE, whose challenge the redirect carries. |
| Scenarios.SingleClientCallbackRedeems | lib/omniauth/strategies/smart.rb:80-104 | A callback presenting a launching state for the registered client's issuer marks the session launched. With a stored verifier it raises ArgumentError. Otherwise an exchange failure is raised and an exchanged body is assembled. |
| Scenarios.LaunchThenCallback | spec/omniauth/strategies/smart_spec.rb:147-163 | For an application-supplied client that answers `use_pkce` with false, launching and then calling back with the redirect's state and a code succeeds. The auth result carries the token response's access token and the identity token's subject, and the session ends launched. The cited test's own `OmniAuth::Smart::Client` cannot launch (`Strategy.ShippedClientsCannotLaunch`), so that test fails as the code is written. |
| Scenarios.CallbackCompletes | lib/omniauth/strategies/smart.rb:80-146 | Over any session holding a launch for the registered client without a verifier, a callback with the state and a code whose exchange answers a token response without an error succeeds with the claims' subject and the access token, and leaves the session launched. |
| Scenarios.AssembleSucceeds | lib/omniauth/strategies/smart.rb:106-146 | A token response without an error, whose identity token decodes to claims without `fhirUser`, gives the claims' `sub` as uid, the response's access token, and a nil practitioner id. Without a truthy `domain`, `ehr_domain` is the response's `ehr_domain`. |
| Scenarios.AssembleWithFhirUser | spec/omniauth/strategies/smart_spec.rb:183-214 | Claims whose `fhirUser` is a reference `<base>/<id>` give `<id>` as practitioner id, keep the reference as `fhir_user_uri` and the encoded identity token as `id_token`, next to the subject and the access token. |
| Scenarios.ForgedStateLeavesLaunchIntact | lib/omniauth/smart/omniauth-smart-session.rb:81-84 | A forged state is refused as "Invalid state id" without touching the session, so the genuine launch can still complete. |
| Scenarios.PkceLaunchSendsChallenge | lib/omniauth/strategies/smart.rb:62-69 | A PKCE launch whose digest has 32 bytes sends a 43-character URL-safe `code_challenge` as the eighth authorize parameter. |
| Scenarios.PkceLaunchCannotComplete | lib/omniauth/strategies/smart.rb:62-101 | The callback for a PKCE launch, with its state and any code, marks the launch used and then raises ArgumentError, whatever the token endpoint and decoder would answer. |
| Scenarios.VerifierCallbackRaises | lib/omniauth/strategies/smart.rb:95-101 | Over any session holding a launch for the registered client and a stored verifier, the callback marks the launch used and raises ArgumentError. |

## Left out

- Network I/O is left out: Faraday, `read_conformance`, the token POST, and the OpenID configuration and JWKS fetches. Their answers are the `fetch` and `post` parameters. JSON arrives already decoded; the parameters say only whether the request failed or the body was not JSON.
- JSON numbers are integers here. Floating-point values are not modelled.
- `lib/omniauth/smart/jwt_verification.rb` is not part of this model. It is RS256 signature checking against a fetched key set.
- `JWT.decode` is the `decode` parameter. It runs with verification disabled, so the model claims nothing about audience binding.
- `SecureRandom.uuid`, `SecureRandom.urlsafe_base64` and `Digest::SHA256` are parameters (`stateId`, `random`, `sha256`). Only the base64url and padding transforms over their output are modelled.
- Percent-encoding by `URI.encode_www_form` and `URI::Parser#escape` is not modelled: query and form data are ordered name/value lists. Escaping is modelled only as failing on a non-String authorize URL.
- Request parameters are a flat string map. Rack's nested (bracketed) parameters are not modelled.
- OmniAuth glue is not modelled: `fail!` (modelled as the `Failure` the phase ends in), `redirect`, `full_host` (the redirect URI is a parameter), logging, and the `autoload` in `lib/omniauth/smart.rb`.
- `AuthHashOf` is the one piece of glue that is kept: it models how OmniAuth assembles the DSL sections, so that the Hash accessors can be related to a callback's result.
- Strategy.RequestPhase: without a backend, the source's `return unless has_backend?` discards the `fail!` response and returns nil. The model reports this as `NoBackendDefined`.
- Strategy.Redeem: a backend of the `OmniauthSmartBackend` family is not modelled as the strategy's backend. Its one-argument `find_by_issuer` would raise ArgumentError at the `params:` keyword. The strategy's backend is the `Backend` family.
- Scenarios.LaunchThenCallback: holds for a client object that answers `use_pkce`, not for the `OmniAuth::Smart::Client` of the test it follows, because neither library client class defines `use_pkce` and the launch raises NoMethodError.
- Strategy.Redeem: the callback as a whole is the corrected program of the Findings row. It uses `Assemble`, so a token response with a truthy `error` ends in "Could not get token", whereas the code as written goes on to an auth hash (`AssembleAsWritten`).
- Scenarios.SuccessfulCallbackAuthHash: the backend is one of the library's classes. An application that implements `find_by_issuer` itself may answer a client with another issuer, and then neither this lemma nor `Scenarios.FoundClientHasSessionIssuer` applies.
- Concurrent callbacks for the same launch are not modelled. The source has no atomic check-and-set of the session; the model's sessions are sequential values.
- The warning log when the granted scope differs from `options[:scope]` (smart.rb:111-113) only writes a log, so it is left out.

## Findings

| source | as written | input that shows it | evidently intended | confidence | as-written member | corrected member |
|---|---|---|---|---|---|---|
| lib/omniauth/strategies/smart.rb:106-108 | `fail!` is called on a token response with an `error`, but the callback does not return, so decoding and assembly continue. | the token response `{"error": "invalid_grant", "id_token": "t"}`, with a decoder that answers claims for `"t"` | the callback stops with "An error occurred. Could not get token." This holds where OmniAuth's failure handler returns; in its development raise-out setting `fail!` raises and the callback stops anyway. | not executed | Strategy.TokenErrorIgnoredAsWritten | Strategy.Assemble |
