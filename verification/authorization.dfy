/**
 * Exchanging an authorization code for a token (OmniAuth::Smart::Authorization and
 * SmartAuthorization): the authorization-code grant request of section 4.1.3 of RFC 6749,
 * with the client identified in the body when it is public and by HTTP Basic
 * authentication (section 2.3.1 of RFC 6749) when it is confidential.
 */
module Authorization {
  import opened Wrappers
  import opened Values
  import opened Clients

  /** HTTP Basic credentials, as given to `basic_auth(client_id, client_secret)`. */
  datatype Credentials = Credentials(login: Option<string>, password: string)

  /** The POST to the token endpoint, before percent-encoding. */
  datatype TokenRequest = TokenRequest(
    url: Value,
    accept: string,
    contentType: string,
    form: seq<Param>,
    basicAuth: Option<Credentials>)

  /** The token endpoint's answer; `body` is None when the body is not JSON. */
  datatype Response = Response(status: int, body: Option<Value>)

  const FormUrlEncoded := "application/x-www-form-urlencoded"
  const ApplicationJson := "application/json"

  /** The three parameters every grant request starts with. */
  function GrantParams(code: Option<string>, redirectUri: string): seq<Param> {
    [Param("code", code), Param("grant_type", Some("authorization_code")), Param("redirect_uri", Some(redirectUri))]
  }

  /** The request `exchange_code_for_token(client, code, redirect_uri)` sends. */
  function TokenRequestFor(tokenUrl: Value, client: Client, code: Option<string>, redirectUri: string): (r: TokenRequest)
    ensures r.url == tokenUrl && r.accept == ApplicationJson && r.contentType == FormUrlEncoded
    ensures |r.form| >= 3 && r.form[..3] == GrantParams(code, redirectUri)
    ensures "client_id" in Names(r.form) <==> IsPublic(client)
    ensures IsPublic(client) ==> r.form[3..] == [Param("client_id", client.clientId)]
    ensures IsConfidential(client) ==> |r.form| == 3
    ensures "code_verifier" !in Names(r.form)
    ensures r.basicAuth.Some? <==> IsConfidential(client)
    ensures r.basicAuth.Some? ==> r.basicAuth.value == Credentials(client.clientId, client.clientSecret.value)
  {
    var form := GrantParams(code, redirectUri) + (if IsPublic(client) then [Param("client_id", client.clientId)] else []);
    assert Names(form) == ["code", "grant_type", "redirect_uri"] + (if IsPublic(client) then ["client_id"] else []);
    var auth := if IsConfidential(client) then Some(Credentials(client.clientId, client.clientSecret.value)) else None;
    TokenRequest(tokenUrl, ApplicationJson, FormUrlEncoded, form, auth)
  }

  /** The client identifies itself in exactly one way: in the body, or by Basic authentication. */
  lemma ExactlyOneClientAuthentication(tokenUrl: Value, client: Client, code: Option<string>, redirectUri: string)
    ensures var r := TokenRequestFor(tokenUrl, client, code, redirectUri);
      ("client_id" in Names(r.form)) != r.basicAuth.Some?
  {
  }

  /**
   * authorization.rb: the decoded body is answered as it is, whatever the status and
   * whether or not it reports an error; `post` answers None when the transport raised.
   */
  function ExchangeCodeForToken(tokenUrl: Value, client: Client, code: Option<string>, redirectUri: string,
                                post: TokenRequest -> Option<Response>): (r: Result<Value, Error>)
    ensures var sent := post(TokenRequestFor(tokenUrl, client, code, redirectUri));
      && (sent.None? ==> r == Failure(TransportError))
      && (sent.Some? && sent.value.body.None? ==> r == Failure(ParseError))
      && (sent.Some? && sent.value.body.Some? ==> r == Success(sent.value.body.value))
  {
    match post(TokenRequestFor(tokenUrl, client, code, redirectUri))
    case None => Failure(TransportError)
    case Some(response) =>
      match response.body
      case None => Failure(ParseError)
      case Some(body) => Success(body)
  }

  /** Faraday's `success?`: a 2xx status. */
  predicate IsSuccessStatus(status: int) {
    200 <= status <= 299
  }

  /**
   * smart-authorization.rb: the same request, but a non-2xx status fails before the body is
   * decoded. The failure is a NoMethodError, because the class has no `fail!`.
   */
  function SmartExchangeCodeForToken(tokenUrl: Value, client: Client, code: Option<string>, redirectUri: string,
                                     post: TokenRequest -> Option<Response>): (r: Result<Value, Error>)
    ensures var sent := post(TokenRequestFor(tokenUrl, client, code, redirectUri));
      && (sent.None? ==> r == Failure(TransportError))
      && (sent.Some? && !IsSuccessStatus(sent.value.status) ==> r == Failure(NoMethodError))
      && (r.Success? ==> sent.Some? && IsSuccessStatus(sent.value.status) && sent.value.body == Some(r.value))
      && (sent.Some? && IsSuccessStatus(sent.value.status) && sent.value.body.Some? ==> r == Success(sent.value.body.value))
  {
    match post(TokenRequestFor(tokenUrl, client, code, redirectUri))
    case None => Failure(TransportError)
    case Some(response) =>
      if !IsSuccessStatus(response.status) then Failure(NoMethodError)
      else
        match response.body
        case None => Failure(ParseError)
        case Some(body) => Success(body)
  }
}
