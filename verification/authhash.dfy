/**
 * OmniAuth::Smart::Hash: read-only accessors over the OmniAuth auth hash a successful
 * callback produces. The auth hash is a Hashie::Mash, whose keys are strings however they
 * were written, so `[:uid]` and `["uid"]` read the same entry.
 */
module AuthHash {
  import opened Wrappers
  import opened Values

  type Mash = map<string, Value>

  const MissingExtra := "Missing extra section in omniauth key from hash"
  const MissingCredentials := "Missing credentials section in omniauth key from hash"
  const MissingToken := "Missing token in omniauth.auth.credentials"

  /** `uid`: a plain lookup, never raising. */
  function Uid(h: Mash): (r: Value)
    ensures "uid" in h ==> r == h["uid"]
    ensures "uid" !in h ==> r == Nil
  {
    Get(h, "uid")
  }

  /** `extra`: the extra section, or KeyError when the hash has none. */
  function Extra(h: Mash): (r: Result<Value, Error>)
    ensures r.Failure? <==> "extra" !in h
    ensures r.Failure? ==> r.error == KeyError(MissingExtra)
    ensures r.Success? ==> r.value == h["extra"]
  {
    if "extra" in h then Success(h["extra"]) else Failure(KeyError(MissingExtra))
  }

  /** `credentials`: the credentials section, or KeyError when the hash has none. */
  function Credentials(h: Mash): (r: Result<Value, Error>)
    ensures r.Failure? <==> "credentials" !in h
    ensures r.Failure? ==> r.error == KeyError(MissingCredentials)
    ensures r.Success? ==> r.value == h["credentials"]
  {
    if "credentials" in h then Success(h["credentials"]) else Failure(KeyError(MissingCredentials))
  }

  /** `extra[name]`, as every derived extra accessor reads it. */
  function ExtraField(h: Mash, name: string): (r: Result<Value, Error>)
    ensures "extra" !in h ==> r == Failure(KeyError(MissingExtra))
    ensures "extra" in h && h["extra"].Hash? ==> r == Success(Get(h["extra"].entries, name))
    ensures "extra" in h ==> r == Index(h["extra"], name)
  {
    var extra :- Extra(h);
    Index(extra, name)
  }

  /** `credentials[name]`. */
  function CredentialsField(h: Mash, name: string): (r: Result<Value, Error>)
    ensures "credentials" !in h ==> r == Failure(KeyError(MissingCredentials))
    ensures "credentials" in h && h["credentials"].Hash? ==> r == Success(Get(h["credentials"].entries, name))
    ensures "credentials" in h ==> r == Index(h["credentials"], name)
  {
    var credentials :- Credentials(h);
    Index(credentials, name)
  }

  function ScopeGranted(h: Mash): Result<Value, Error> { ExtraField(h, "scope_granted") }
  function StyleUrl(h: Mash): Result<Value, Error> { ExtraField(h, "style_url") }
  function OrgId(h: Mash): Result<Value, Error> { ExtraField(h, "org_id") }
  function PatientId(h: Mash): Result<Value, Error> { ExtraField(h, "patient_id") }
  function FhirUri(h: Mash): Result<Value, Error> { ExtraField(h, "fhir_uri") }
  function Expires(h: Mash): Result<Value, Error> { CredentialsField(h, "expires") }
  function ExpiresAt(h: Mash): Result<Value, Error> { CredentialsField(h, "expires_at") }

  /**
   * `token`: the credentials' token, or KeyError when the credentials have no such key
   * (an entry holding nil still counts as present).
   */
  function Token(h: Mash): (r: Result<Value, Error>)
    ensures "credentials" !in h ==> r == Failure(KeyError(MissingCredentials))
    ensures "credentials" in h && h["credentials"].Hash? ==>
      var c := h["credentials"].entries;
      && ("token" in c ==> r == Success(c["token"]))
      && ("token" !in c ==> r == Failure(KeyError(MissingToken)))
    ensures "credentials" in h && !h["credentials"].Hash? ==> r == Failure(NoMethodError)
  {
    var credentials :- Credentials(h);
    var present :- HasKey(credentials, "token");
    if !present then Failure(KeyError(MissingToken)) else Index(credentials, "token")
  }

  /**
   * With both sections present as hashes, no accessor fails: the derived accessors read
   * the entry of the same name, absent entries reading as nil, and only `token` insists
   * on presence.
   */
  lemma WellFormedHashReads(h: Mash)
    requires "extra" in h && h["extra"].Hash?
    requires "credentials" in h && h["credentials"].Hash?
    ensures var e := h["extra"].entries;
      && ScopeGranted(h) == Success(Get(e, "scope_granted"))
      && StyleUrl(h) == Success(Get(e, "style_url"))
      && OrgId(h) == Success(Get(e, "org_id"))
      && PatientId(h) == Success(Get(e, "patient_id"))
      && FhirUri(h) == Success(Get(e, "fhir_uri"))
    ensures var c := h["credentials"].entries;
      && Expires(h) == Success(Get(c, "expires"))
      && ExpiresAt(h) == Success(Get(c, "expires_at"))
      && (Token(h).Success? <==> "token" in c)
  {
  }

  /** Without an extra section every extra accessor raises the same KeyError, whatever else the hash holds. */
  lemma MissingExtraFailsEveryExtraAccessor(h: Mash)
    requires "extra" !in h
    ensures ScopeGranted(h) == StyleUrl(h) == OrgId(h) == PatientId(h) == FhirUri(h) == Failure(KeyError(MissingExtra))
    ensures Uid(h) == Get(h, "uid")
  {
  }
}
