/**
 * Registered relying-party configurations: OmniAuth::Smart::Client and the older
 * OmniauthSmartClient. Both are plain records; a client is public exactly when it has no
 * secret.
 */
module Clients {
  import opened Wrappers

  /**
   * A client as the strategy sees it. `usePkce` stands for the `use_pkce` attribute: None
   * when the object does not answer `use_pkce` at all, which is the case for both client
   * classes of the library (only a client object supplied by an application can carry it).
   */
  datatype Client = Client(
    issuer: Option<string>,
    clientId: Option<string>,
    clientSecret: Option<string>,
    orgId: Option<string>,
    scope: Option<string>,
    openIdConfigurationUrl: Option<string>,
    usePkce: Option<bool>)

  /** The keyword arguments of a constructor call; an omitted keyword is None, like `nil`. */
  datatype Args = Args(
    issuer: Option<string>,
    clientId: Option<string>,
    clientSecret: Option<string>,
    orgId: Option<string>,
    scope: Option<string>,
    openIdConfigurationUrl: Option<string>)

  /** `OmniAuth::Smart::Client.new(**args)`: every attribute is taken from its keyword. */
  function New(args: Args): (c: Client)
    ensures c.issuer == args.issuer && c.clientId == args.clientId
    ensures c.clientSecret == args.clientSecret && c.orgId == args.orgId
    ensures c.scope == args.scope && c.openIdConfigurationUrl == args.openIdConfigurationUrl
    ensures c.usePkce.None?
  {
    Client(args.issuer, args.clientId, args.clientSecret, args.orgId, args.scope,
           args.openIdConfigurationUrl, None)
  }

  /**
   * `OmniauthSmartClient.new(**args)`: the same, except that this class has no
   * `open_id_configuration_url` and ignores that keyword.
   */
  function NewOmniauthSmartClient(args: Args): (c: Client)
    ensures c.issuer == args.issuer && c.clientId == args.clientId
    ensures c.clientSecret == args.clientSecret && c.orgId == args.orgId
    ensures c.scope == args.scope
    ensures c.openIdConfigurationUrl.None? && c.usePkce.None?
  {
    Client(args.issuer, args.clientId, args.clientSecret, args.orgId, args.scope, None, None)
  }

  /** `is_public?`: the secret is `nil`. */
  predicate IsPublic(c: Client) {
    c.clientSecret.None?
  }

  /** `is_confidential?`: the negation of `is_public?`. */
  predicate IsConfidential(c: Client) {
    !IsPublic(c)
  }

  /**
   * A constructed client is public exactly when no secret was given; any secret, even the
   * empty string, makes it confidential.
   */
  lemma ClassificationBySecret(args: Args)
    ensures IsPublic(New(args)) <==> args.clientSecret.None?
    ensures IsPublic(NewOmniauthSmartClient(args)) <==> args.clientSecret.None?
    ensures IsConfidential(New(args)) <==> !IsPublic(New(args))
    ensures args.clientSecret == Some("") ==> IsConfidential(New(args)) && IsConfidential(NewOmniauthSmartClient(args))
  {
  }
}
